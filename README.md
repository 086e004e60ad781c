# swecc-dashboard: log streaming and container metrics, in Dafny

swecc-dashboard is a browser dashboard for the containers of a deployment. It
has two generations of client:

- a TypeScript/React application under `src/`;
- an older plain-script page under `js/`.

This project models the logic core of both.

- **Log-streaming connection managers** (`LogsService`, TypeScript and legacy
  script). They open a WebSocket to the log service and ask it to
  `start_logs` for a container. They keep the last 1000 log entries and
  report connection changes to the view. After an unexpected close they
  reconnect with a bounded exponential backoff: 5 attempts, 2000 ms growing
  by 1.5 each time.
- **The logs view** (`LogsPanel`). It keeps its own bounded copy of the
  entries and enables the Start/Stop buttons from the connection flag. It
  classifies each entry into a tagged display line, and registers itself
  with the manager in an effect with a cleanup.
- **Container metrics services** (TypeScript `MetricsService` and the
  legacy `js/metrics.js`), plus the `useContainerDetails` hook:
  - lookups with defaults;
  - sorted container names;
  - the latest sample by timestamp and the per-container history;
  - port-mapping flattening;
  - label filtering, with the hook's all-labels fallback.
- **Display helpers:**
  - `formatDuration`, the uptime text;
  - `getCookie`;
  - the label card truncation of `LabelsPanel`;
  - the memory-bar colour of `ResourceMetrics`.

How each kind of source code is modelled:

- **Stateful objects** are Dafny classes whose methods update their fields.
  - The socket is an optional field.
  - Messages sent on the socket, callback invocations, UI updates and error
    banners are recorded in ghost sequences.
  - The pending reconnect timer is an optional delay (TypeScript), or a
    sequence of untracked delays (legacy).
  - The token request and the success of the socket constructor are inputs.
  - Each socket event is a method call.
- **Loops** (port mappings, label filtering) are methods with loop
  invariants, proved against recursive specification functions.
- **Pure expressions** are functions with lemmas.

## Model

| member | source | states |
|---|---|---|
| `Backoff.Delay` | src/services/LogsService.ts:273-275 | For attempts 1..5, the delay times 2^(n-1) equals 2000·3^(n-1). So the integer delay is the exact value of `2000 * 1.5^(n-1)`. The legacy formula at js/logs.js:240-242 is the same. |
| `Backoff.DelaySchedule` | src/services/LogsService.ts:273-275 | The five delays are 2000, 3000, 4500, 6750 and 10125 ms. |
| `Backoff.DelayGrows` | src/services/LogsService.ts:273-275 | Each delay within the cap is one and a half times the previous one. |
| `Backoff.RoundedSecondsSchedule` | src/services/LogsService.ts:279-283 | The seconds announced for attempts 1..5 are 2, 3, 5, 7 and 10 (`Math.round(delay/1000)`). |
| `LogBuffer.Push` | src/services/LogsService.ts:317-320 | Below 1000 entries the entry is appended. At 1000 the oldest is dropped and the entry appended. |
| `LogBuffer.PushKeepsMostRecent` | src/services/LogsService.ts:317-320 | On a buffer within capacity, one append gives exactly the last 1000 of buffer + entry, in order, and stays within 1000. |
| `LogBuffer.PushAllKeepsMostRecent` | src/services/LogsService.ts:307-325 | Any run of appends leaves exactly the last 1000 of everything appended, in original order. |
| `LogProtocol.IssuedToken` | src/services/LogsService.ts:65-72 | A token is issued iff the answer is 200 and carries a non-empty token, and it is that token. |
| `LogProtocol.StampFromMessage` | src/services/LogsService.ts:308-315 | Kind and message are never changed. A changed timestamp is the first 19 characters of a received message text. |
| `LogProtocol.StampMatchesPattern` | src/services/LogsService.ts:308-315 | An entry is stamped iff it is a `log_line` without a truthy timestamp whose text starts with `dddd-dd-ddTdd:dd:dd`. The stamp itself has that shape. |
| `LogProtocol.StampIdempotent` | src/services/LogsService.ts:308-315 | Stamping a stamped entry changes nothing. |
| `LogProtocol.GeneratedTextsUntimestamped` | src/services/LogsService.ts:264-284 | Every message the client writes itself starts with a capital letter, so `addLogEntry` never stamps one. |
| `LogProtocol.GaveUpText` | src/services/LogsService.ts:265-270 | The give-up message is exactly "Failed to reconnect after 5 attempts". |
| `Html.EscapeHtml` | src/services/LogsService.ts:327-333 | An empty text gives "". Decoding the result gives the text back, so the escaping loses nothing. js/logs.js:322-328 is the same. |
| `Html.UnescapeEscapeText` | src/services/LogsService.ts:330-332 | The text-node serialisation is inverted by decoding the four references it produces. |
| `Html.EscapedHasNoAngleBrackets` | src/services/LogsService.ts:330-332 | The serialised text contains no `<` or `>`, so it opens no tag. |
| `Html.PlainTextUnchanged` | src/services/LogsService.ts:330-332 | Text without `&`, no-break space, `<` or `>` is serialised unchanged. |
| `Logs.LogsService.constructor` | src/services/LogsService.ts:25-44 | There is no socket, token or container. The manager is disconnected with 0 attempts, auto-scroll on, an empty buffer, no timer and no intentional closure. The callbacks are as given. |
| `Logs.LogsService.SetListeners` | src/services/LogsService.ts:39-40 | Assigning the public callbacks sets exactly which listeners are present. |
| `Logs.LogsService.SetAutoScroll` | src/services/LogsService.ts:79-82 | The flag becomes the argument. |
| `Logs.LogsService.GetLogBuffer` | src/services/LogsService.ts:355-357 | Returns the buffered entries in insertion order, at most 1000. |
| `Logs.LogsService.AddLogEntry` | src/services/LogsService.ts:307-325 | The buffer becomes the bounded push of the stamped entry. `onLogEntry` receives that same entry once when set. The cap invariant is kept. |
| `Logs.LogsService.SetConnectionStatus` | src/services/LogsService.ts:298-305 | The flag takes the value. A transition and a callback are recorded only on an actual change, so the recorded statuses alternate true, false, and so on. |
| `Logs.LogsService.ConnectWebSocket` | src/services/LogsService.ts:161-200 | An existing socket is closed (without a code) and dropped. Then either a new socket holds the token and "Connecting to logs for …" is logged, or the construction failure is logged as an error. |
| `Logs.LogsService.FetchJwtToken` | src/services/LogsService.ts:57-77 | Succeeds iff a token is issued. It stores the token, and otherwise keeps the previous one. |
| `Logs.LogsService.Restart` | src/services/LogsService.ts:96-113 | Cancels the timer and resets attempts. It fetches a token only when none is held. A failed fetch rejects with the authentication error and changes neither socket nor buffer. Otherwise it connects. |
| `Logs.LogsService.StartLogging` | src/services/LogsService.ts:88-114 | Clears the intentional closure and records the name. An empty name rejects with "Please select a container first" before the timer or attempts change. Otherwise behaves as `Restart`. |
| `Logs.LogsService.StopLogging` | src/services/LogsService.ts:116-154 | Always sets the intentional closure and clears the timer. With a socket, it sends `stop_logs` only while connected and closes with 1000. It drops the socket, disconnects (notifying on the edge) and logs "Log streaming stopped". Without a socket nothing else changes. |
| `Logs.LogsService.CloseStream` | src/services/LogsService.ts:124-153 | The socket branch of `stopLogging`, message by message and entry by entry. |
| `Logs.LogsService.ClearLogs` | src/services/LogsService.ts:156-159 | The buffer becomes empty. |
| `Logs.LogsService.HandleSocketOpen` | src/services/LogsService.ts:202-224 | Connected, with attempts at 0. With a socket and a container, exactly one `start_logs` carrying that name is attempted. A failing send logs one error entry. |
| `Logs.LogsService.HandleSocketMessage` | src/services/LogsService.ts:226-239 | Each frame adds exactly one entry. A parsed frame is added stamped; an unparsable one becomes "Failed to parse log message: …". |
| `Logs.LogsService.AttemptReconnect` | src/services/LogsService.ts:264-289 | Below 5 attempts: increments the count, logs the announcement and replaces any pending timer with one timer of that attempt's delay. At 5: logs the give-up error and schedules nothing. Attempts stay ≤ 5. |
| `Logs.LogsService.HandleSocketClose` | src/services/LogsService.ts:241-254 | Disconnects. With an intentional closure or code 1000, nothing else changes. Otherwise behaves as `AttemptReconnect`: the entry it logs (give-up or reconnecting) is buffered and delivered to a registered listener. |
| `Logs.LogsService.HandleSocketError` | src/services/LogsService.ts:256-262 | One "WebSocket connection error" entry and nothing else. |
| `Logs.LogsService.FireReconnectTimer` | src/services/LogsService.ts:290-295 | The timer is forgotten. It reconnects exactly when disconnected, with a container, and not intentionally closed; otherwise nothing else changes. |
| `LegacyLogs.LogsService.constructor` | js/logs.js:2-13 | The same initial state. There is no timer and no page output, and the page either has or lacks the logs container. |
| `LegacyLogs.LogsService.SetAutoScroll` | js/logs.js:65-70 | The flag follows the checkbox. |
| `LegacyLogs.LogsService.AddLogEntry` | js/logs.js:260-271 | Without the logs container the entry is dropped. Otherwise it is the bounded push of the unstamped entry. |
| `LegacyLogs.LogsService.ConnectWebSocket` | js/logs.js:147-177 | An existing socket is closed and dropped. Then either a new socket and "Connecting…" entry, or a connection-failure banner with no entry. |
| `LegacyLogs.LogsService.StartLogging` | js/logs.js:91-112 | The selection is recorded. An empty one shows a banner and leaves the token alone. A token is fetched only when none is held, and failing shows a banner. No connection is made in either case. Otherwise it connects: a new socket with the "Connecting to logs for …" entry (when the page has the logs container), or the failure banner with the buffer unchanged. Attempts and timers are untouched. |
| `LegacyLogs.LogsService.StopLogging` | js/logs.js:114-136 | No-op without a socket. With one: `stop_logs` only while connected, close with 1000, drop the socket, disconnect, UI set to stopped, one system entry. When the unguarded `stop_logs` send throws, only that attempt is recorded and socket, connection flag, UI and buffer stay as they were. |
| `LegacyLogs.LogsService.ClearLogs` | js/logs.js:138-145 | Empties the buffer only when the logs container exists. |
| `LegacyLogs.LogsService.HandleSocketOpen` | js/logs.js:179-192 | Connected with attempts at 0 in every case, the only place they are reset. With a socket, one `start_logs` is attempted. The streaming UI follows only when that send does not throw. |
| `LegacyLogs.LogsService.HandleSocketMessage` | js/logs.js:194-205 | A parsed frame is added as is; a parse failure as an error entry. |
| `LegacyLogs.LogsService.AttemptReconnect` | js/logs.js:230-258 | Same cap and delays. Below 5 attempts, one more untracked timer is added beside any pending ones. At 5, one give-up error and the stopped UI. |
| `LegacyLogs.LogsService.HandleSocketClose` | js/logs.js:207-220 | Disconnects. Any code but 1000 reconnects, with no intentional-close suppression, and buffers the give-up or reconnecting entry (when the page has the logs container). Code 1000 only sets the UI to stopped. |
| `LegacyLogs.LogsService.HandleSocketError` | js/logs.js:222-228 | One error entry, when the container exists. |
| `LegacyLogs.LogsService.FireTimer` | js/logs.js:253-257 | That timer is removed. It reconnects whenever disconnected, whatever stopped the stream, with the same socket, entry and banner outcome as `ConnectWebSocket`. |
| `LogsPanel.AppendRecent` | src/components/dashboard/LogsPanel.tsx:21-28 | The result is the last 1000 of the list plus the entry, and ends with the entry. |
| `LogsPanel.AppendRecentMirrorsPush` | src/components/dashboard/LogsPanel.tsx:21-28 | On a list within capacity the view's updater equals the manager's buffer rule. |
| `LogsPanel.AppendAllMirrorsPushAll` | src/components/dashboard/LogsPanel.tsx:19-28 | A view that starts from the manager's buffer and receives every delivered entry holds exactly the manager's buffer. |
| `LogsPanel.FormatLogEntry` | src/components/dashboard/LogsPanel.tsx:101-176 | `log_line` and unknown kinds carry no tag. Only `log_line`/`log_error` bodies are escaped markup of `message \|\| ''`. Unknown kinds with an empty message show the entry's JSON. The time shown is the message's leading timestamp for a `log_line`, else the entry's timestamp or the current time. |
| `LogsPanel.Tags` | src/components/dashboard/LogsPanel.tsx:107-168 | The kinds map to SYSTEM:, ERROR:, STARTED:, STOPPED: and STDERR:. |
| `LogsPanel.ShownTimeIsStamp` | src/components/dashboard/LogsPanel.tsx:136-146 | A `log_line` the manager stamped shows that same stamp as its time. |
| `LogsPanel.ControlsFor` | src/components/dashboard/LogsPanel.tsx:198-210 | Start is disabled iff streaming, and Stop exactly when Start is not. |
| `LogsPanel.Panel.constructor` | src/components/dashboard/LogsPanel.tsx:9-13 | Initial state: not streaming, auto-scroll on, no entries, no error. |
| `LogsPanel.Panel.Mount` | src/components/dashboard/LogsPanel.tsx:44-56 | Registers both callbacks and copies the manager's flags. The list is replaced by the buffer snapshot only when it is non-empty. |
| `LogsPanel.Panel.Unmount` | src/components/dashboard/LogsPanel.tsx:59-67 | Unregisters both callbacks. `stopLogging` runs only when connected: with a socket it sends `stop_logs` and the normal close, disconnects and buffers "Log streaming stopped", and nothing reaches the view because the listeners are already gone. Otherwise the manager's stream state, buffer, transitions and callback records are all untouched. |
| `LogsPanel.Panel.HandleLogEntry` | src/components/dashboard/LogsPanel.tsx:19-28 | The list becomes the bounded append of the entry. |
| `LogsPanel.Panel.HandleConnectionStatusChange` | src/components/dashboard/LogsPanel.tsx:39-42 | Streaming follows the callback, and with it the Start button. |
| `LogsPanel.Panel.HandleClearLogs` | src/components/dashboard/LogsPanel.tsx:90-93 | The view's list and the manager's buffer both become empty. |
| `LogsPanel.Panel.HandleStartLogging` | src/components/dashboard/LogsPanel.tsx:70-79 | The error is cleared, then set to the rejection's message exactly when `startLogging` rejects. A shown error means nothing was connected or logged. No error means the token is held, the old socket was closed, and a socket was created or the failure was logged, as `startLogging` promises. |
| `LogsPanel.Panel.HandleStopLogging` | src/components/dashboard/LogsPanel.tsx:81-88 | The manager ends in exactly the state `stopLogging` promises: no timer, no socket, an intentional closure, and, with a socket, the sends, the disconnection and the stop entry. |
| `LogsPanel.Panel.HandleAutoScrollToggle` | src/components/dashboard/LogsPanel.tsx:95-99 | Both auto-scroll flags follow the checkbox, and nothing else changes (the intended behaviour; see Findings). |
| `LogsPanel.Panel.HandleAutoScrollToggleAsWritten` | src/components/dashboard/LogsPanel.tsx:59-68 | Both flags follow the checkbox. Because `autoScroll` is an effect dependency, a change while mounted and connected stops the stream. |
| `Containers.ShownHostIp` | src/services/MetricsService.ts:183 | `0.0.0.0` is shown as "All Interfaces"; every other IP unchanged. |
| `Containers.MapBindings` | src/services/MetricsService.ts:180-186 | One mapping per binding, in order, with the port and host port copied. |
| `Containers.FlattenPortsLength` | src/services/MetricsService.ts:179-187 | As many mappings as host bindings in all entries. |
| `Containers.MappingPosition` | src/services/MetricsService.ts:179-187 | Binding j of entry i is at position (bindings before entry i) + j. So the result is grouped by entry in iteration order. |
| `Containers.PushBindings` | src/services/MetricsService.ts:180-186 | The inner loop appends exactly the entry's mappings. |
| `Containers.PortMappings` | src/services/MetricsService.ts:172-190 | `[]` for missing details or ports; otherwise the flattened mappings. The hook's copy at src/hooks/useContainerDetails.ts:77-96 is the same. |
| `Containers.Lookup` | src/services/MetricsService.ts:206 | `labels[key]` on the entries: absent iff no entry has the key; otherwise the value of an entry with that key. |
| `Containers.IndexOf` | src/services/MetricsService.ts:205 | The position of a key in the list: below the length iff the key is in the list, the key sits there, and no earlier position holds it. |
| `Containers.Interesting` | src/services/MetricsService.ts:205-209 | After the first n of a list of distinct keys: every pair is one of those n keys with a non-empty value in the labels, and carries that value. The keys follow the order of the list, with none repeated. Every qualifying key among the n appears. |
| `Containers.InterestingEmpty` | src/hooks/useContainerDetails.ts:117 | The filtered labels of interest are empty iff no label of interest has a non-empty value. |
| `Containers.ImportantLabels` | src/services/MetricsService.ts:192-212 | `{}` for missing details or labels. Otherwise the loop builds exactly `Interesting` over the four distinct labels of interest. So it holds the qualifying labels with their values, in list order. |
| `Containers.LabelsWithFallback` | src/hooks/useContainerDetails.ts:98-124 | `{}` when details or labels are missing. With any qualifying label of interest, exactly the ordered labels of interest, which is non-empty. Otherwise every label, in the record's own order. |
| `Containers.FormatDate` | src/hooks/useContainerDetails.ts:126-130 | An empty date gives "N/A"; otherwise the locale text. src/services/MetricsService.ts:153-157 is the same. |
| `Metrics.MetricsService.constructor` | src/services/MetricsService.ts:47-50 | Empty dictionaries and no fetch time. |
| `Metrics.MetricsService.FetchContainers` | src/services/MetricsService.ts:52-69 | Succeeds iff the answer is 200, and then replaces the list and records the time. Otherwise both stay. |
| `Metrics.MetricsService.FetchContainerDetails` | src/services/MetricsService.ts:71-86 | A 200 stores and returns the record. Otherwise null and nothing stored. |
| `Metrics.MetricsService.FetchContainerUsage` | src/services/MetricsService.ts:88-114 | Polling off: `[]`. 200: stores and returns the samples (`[]` when none). A thrown request, which includes every non-2xx answer, stores `[]` and returns null, so `hasUsageData` turns false. Another 2xx status returns null and keeps the stored samples. |
| `Metrics.MetricsService.GetContainerUsage` | src/services/MetricsService.ts:124-126 | The stored samples, or `[]` when unknown. Non-empty iff `hasUsageData`. |
| `Metrics.MetricsService.GetLatestUsage` | src/services/MetricsService.ts:128-135 | Null iff no usage data. Otherwise a stored sample with the greatest timestamp, with every earlier sample strictly older (what the stable descending sort puts first). The stored list is not changed. |
| `Metrics.MetricsService.GetContainerNames` | src/services/MetricsService.ts:141-143 | Exactly the container keys, each once, strictly ascending. |
| `Metrics.MetricsService.GetContainerStatus` | src/services/MetricsService.ts:145-147 | The listed status, or `unknown`. |
| `Metrics.MetricsService.GetContainerDetails` | src/services/MetricsService.ts:149-151 | The stored record, or null iff none. |
| `Ordering.SortedNames` | src/services/MetricsService.ts:142 | Strictly ascending under the default string order, holding exactly the given names. |
| `Ordering.LatestIndex` | src/services/MetricsService.ts:131-134 | An index with the greatest time, every earlier element strictly earlier. |
| `Ordering.InsertBy` | js/metrics.js:54-56 | Insertion into a time-ordered list keeps it ordered and adds exactly the element. |
| `Ordering.SortBy` | js/metrics.js:54-56 | The result is in ascending time order and is a permutation of the input. |
| `LegacyMetrics.OfContainer` | js/metrics.js:50-52 | Every element is a sample of that container from the list, and every such sample is present. |
| `LegacyMetrics.OfContainerCounts` | js/metrics.js:50-52 | Each sample of the container occurs as often as in the list, and no other sample occurs. |
| `LegacyMetrics.OfContainerAppend` | js/metrics.js:50-52 | The filter keeps order: filtering a concatenation gives the concatenation of the filters. |
| `LegacyMetrics.SliceFrom` | js/metrics.js:58 | `slice(start)` with a negative start counting from the end, clamped at both ends. |
| `LegacyMetrics.SliceLast` | js/metrics.js:58 | `slice(-limit)` keeps the last min(limit, n) elements for a positive limit, and all of them for 0. |
| `LegacyMetrics.MetricsService.constructor` | js/metrics.js:2-6 | No samples, no names, no fetch time. |
| `LegacyMetrics.MetricsService.FetchMetrics` | js/metrics.js:8-31 | Succeeds iff 200: replaces the samples and records the time. The name set stays exactly the names occurring in the samples. |
| `LegacyMetrics.MetricsService.GetContainerNames` | js/metrics.js:33-35 | Each sample's container once, strictly ascending. |
| `LegacyMetrics.MetricsService.GetLatestMetricForContainer` | js/metrics.js:37-47 | Null iff the container has no sample. Otherwise one of its samples with the greatest timestamp. |
| `LegacyMetrics.MetricsService.GetMetricHistoryForContainer` | js/metrics.js:49-59 | Only that container's samples, in ascending time. By default or for a positive limit, the last min(limit, n) of the sorted list; for 0 the whole sorted list. |
| `LegacyMetrics.HistoryFacts` | js/metrics.js:49-58 | The sliced history holds only the container's samples, in time order. |
| `Duration.BreakdownIsDirect` | src/utils/utils.ts:83-87 | The successive floors equal floor(ms/60000), floor(ms/3600000) and floor(ms/86400000), for every integer ms. js/utils.js:80-84 is the same. |
| `Duration.FormatDuration` | src/utils/utils.ts:82-95 | A day or more of elapsed time ends the text in " hours"; anything shorter, a negative difference included, ends it in " min". js/utils.js:76-93 is the same. |
| `Duration.FormatDurationCases` | src/utils/utils.ts:89-95 | A day or more gives "D day[s] H hours" with H the total hours mod 24. An hour or more gives "H hour[s] M min" with M mod 60. Anything else gives "M min". js/utils.js:86-92 is the same. |
| `Duration.SingularDay` | src/utils/utils.ts:90 | Between one and two days the unit is singular ("1 day"), while "hours" stays plural. |
| `Duration.FormatDurationSince` | src/services/MetricsService.ts:167-170 | An empty start date gives "N/A"; otherwise the duration text. |
| `Cookies.GetCookie` | js/utils.js:35-42 | The value never contains `;`. |
| `Cookies.AbsentGivesEmpty` | js/utils.js:36-41 | No `"; name="` in `"; " + cookie` gives "". |
| `Cookies.RepeatedGivesEmpty` | js/utils.js:37-41 | Two non-overlapping occurrences give "", because the split yields more than two parts. |
| `Cookies.FirstPieceIsValue` | js/utils.js:39 | Cutting at the first `;` gives back a value without `;`, followed by nothing or the next pair. |
| `Cookies.SetCookieIsRead` | js/utils.js:35-42 | A cookie string holding `name=v` once, first or after `"; "`, with v free of `;`, gives back v. |
| `Cookies.LongerNameNotMatched` | js/utils.js:36-37 | A cookie `p + name = v` with a non-empty `p` (no `=` in the name, no `;` anywhere) is not read as `name`: the result is "". |
| `LabelsPanel.DisplayKey` | src/components/dashboard/LabelsPanel.tsx:21 | The whole key when it has no dot or ends with one. Otherwise the non-empty, dot-free suffix after the last dot. |
| `LabelsPanel.DisplayValue` | src/components/dashboard/LabelsPanel.tsx:22-23 | Always ≤ 100 characters. Unchanged up to 100; otherwise the first 97 and "...". |
| `LabelsPanel.Title` | src/components/dashboard/LabelsPanel.tsx:30 | The full value is the title iff the shown value differs from it. |
| `LabelsPanel.Render` | src/components/dashboard/LabelsPanel.tsx:12-36 | Nothing iff there are no labels. Otherwise one card per label, in entry order. |
| `ResourceMetrics.MemoryBarColor` | src/components/dashboard/ResourceMetrics.tsx:16-24 | Danger iff > 80, warning iff in (60, 80], success iff ≤ 60. |
| `ResourceMetrics.SeverityMonotone` | src/components/dashboard/ResourceMetrics.tsx:16-24 | A fuller memory never gets a milder colour. |
| `ResourceMetrics.Render` | src/components/dashboard/ResourceMetrics.tsx:12-57 | Nothing iff there is no latest sample. Otherwise a bar as wide as the percentage, with the CSS colour (`var(--color-danger)`, ...) of its band as background. |

## Left out

- Transport and the network are not modelled:
  - WebSocket URLs, the handler binding and the HTTP requests (token, metrics, usage, details) are outside the model.
  - A socket is an optional value and an event is a method call.
  - Each response is a status plus data, or a thrown request. Both HTTP clients reject every answer outside 200-299, so a non-2xx answer is a thrown request; a response whose status is not 200 stands for another 2xx answer.
  - A response body that is not an array or object is not modelled.
- Events carry no socket identity, because the handlers are bound to the manager. So a late `close` of a replaced socket is processed like any other close, as in the source.
- Message texts are kept symbolic (`LogProtocol.Message`). `LogProtocol.Text` gives each exact text. A received message is its text, and an absent one is `None`.
- `highlightLogContent` is left out: it is a chain of regular-expression replacements whose word-boundary and case-insensitive semantics are not modelled. `FormatLogEntry` stops at the escaped text handed to it.
- `escapeHtml` goes through the DOM. It is modelled as the HTML text-node serialisation (section 13.3 of the HTML Living Standard, "Serializing HTML fragments", the escaping of a text node).
- Floating point and locales are not modelled: `formatBytes`, `formatNumber`, `toLocaleString`/`toLocaleTimeString` (`FormatDate` takes the locale text as a parameter), and the memory percentage, which is a Dafny `real`.
- Clocks, `debounce` and the auto-refresh intervals are not modelled. `formatDuration` takes the elapsed milliseconds. A fetch takes the clock reading as `now`.
- `Date` parsing is not modelled:
  - Timestamps are integer milliseconds.
  - An invalid date (NaN) is not modelled.
  - String order compares characters as Dafny `char` values, which agrees with JavaScript's UTF-16 order outside surrogate pairs.
- `LabelsPanel.DisplayValue` counts Dafny characters (Unicode scalar values), where `length` and `substring` count UTF-16 code units. A value with characters outside the Basic Multilingual Plane is cut at a different place, and a cut inside a surrogate pair cannot be represented.
- `LabelsPanel.Title` compares lengths in Dafny characters, not UTF-16 code units, so a value with characters outside the Basic Multilingual Plane may get its title at a different length than in the source.
- `Containers.Lookup` reads own entries only. Inherited properties of a JavaScript object (none of which is a label of interest) are not modelled.
- `Metrics.MetricsService.HasUsageData` treats `containerUsage` as holding only its own keys. In the source it is a plain object, so `in` also sees inherited `Object.prototype` names: `hasUsageData('constructor')` is true with nothing stored (src/services/MetricsService.ts:117-121), where the model answers `false`.
- `Metrics.MetricsService.GetContainerUsage` reads own keys only. `getContainerUsage('toString')` returns an inherited function in the source (src/services/MetricsService.ts:125), where the model gives `[]`.
- `Metrics.MetricsService.GetLatestUsage` reads own keys only. With nothing stored, `getLatestUsage('constructor')` throws in the source, because `hasUsageData` is true and `[...Object]` fails (src/services/MetricsService.ts:128-131), where the model gives `None`.
- `Metrics.MetricsService.GetContainerStatus` reads own keys only. `getContainerStatus('valueOf')` returns an inherited function in the source (src/services/MetricsService.ts:146), where the model gives `Unknown`.
- `Metrics.MetricsService.GetContainerDetails` reads own keys only. `getContainerDetails('constructor')` returns an inherited function in the source (src/services/MetricsService.ts:150), where the model gives `None`.
- `Ordering.SortBy` states ordering and permutation but not stability. The sorts are modelled as functions on values, not as the in-place `Array.prototype.sort` on a fresh copy; the copy is what makes the stored lists keep their order.
- Callbacks and UI side effects are modelled as records and flags, not as React behaviour:
  - The manager's callbacks are recorded as ghost sequences. The view's handlers are separate calls.
  - The re-rendering, scrolling and timeouts of React are not modelled.
  - The loading and error state of `useContainerDetails` and its `fetchDetails` are left out, and so is `useContainerUsage`.
- `Logs.LogsService.FireReconnectTimer` requires a pending timer, because a cleared timer never fires.
- The DOM details of `showError` are left out. Banners are recorded symbolically.
- `LegacyLogs.LogsService.HandleSocketMessage` takes a socket frame to be a JSON object. A frame that parses to `null` is pushed and then, when its rendering throws on `data.type` (js/logs.js:263-268), followed by a parse-failure entry, two entries the model does not represent; other non-object frames (numbers, strings, arrays) are not modelled either.
- The legacy page's rendered log lines (js/logs.js:273-320) are not modelled. They share only the kind-to-tag mapping of `FormatLogEntry`. Unlike it, the legacy page always shows the current time (js/logs.js:276), never the entry's own timestamp.
- `POLL_USAGE` is a build-time constant. It is a constructor parameter here.
- `LegacyMetrics.MetricsService.GetMetricHistoryForContainer` characterises only limits ≥ 0: a negative limit slices from a positive start, which `SliceFrom` covers but the contract does not spell out.
- The `await` in `startLogging` is treated as atomic: each user action and each event runs to completion.
- The DOM glue of js/dashboard.js and its copy of the label truncation are not part of this model.
- js/api.js, src/services/api.ts and the React components other than `LogsPanel`, `LabelsPanel` and `ResourceMetrics` are not part of this model.
- `Logs.LogsService.IsAutoScrollEnabled` and `Logs.LogsService.GetConnectionStatus` are plain field reads without a contract of their own.

## Findings

| source | as written | input that shows it | evidently intended | confidence | as-written member | corrected member |
|---|---|---|---|---|---|---|
| src/components/dashboard/LogsPanel.tsx:59-68 | The registration effect lists `autoScroll` as a dependency. Toggling auto-scroll therefore runs the cleanup, which calls `stopLogging` while connected. The effect's own `setAutoScroll(logsService.isAutoScrollEnabled())` (line 49) is a second trigger: when the manager's flag differs from the view's, mounting changes `autoScroll` and runs the cleanup once more. That second path is not modelled as a separate scenario; it goes through the same cleanup. | Start streaming a container, let the socket open, then untick "auto-scroll". The stream stops with an intentional closure (`LogsPanel.AutoScrollToggleStopsStream`). | Toggling auto-scroll changes only the two auto-scroll flags and keeps the stream (`LogsPanel.AutoScrollToggleKeepsStream`). | medium, not executed | `LogsPanel.Panel.HandleAutoScrollToggleAsWritten` | `LogsPanel.Panel.HandleAutoScrollToggle` |
