# Analysis WebSocket client: routing, batching and bookkeeping

This project models the decision and state logic of `AnalysisWebSocketClient`,
the client that listens to a file-monitoring WebSocket server and asks the
`etl_analysis` service to rescan when spreadsheet files change.

It covers four pieces.

- **Event routing** (module `EventRouting`, file `routing.dfy`). A decoded
  message is a record with optional fields.
  - A grouped `files_changed` message carries lists of created, modified and
    deleted entries.
  - An older single-event message carries `file_created`, `file_modified`,
    `file_deleted`, `connected`, `pong` or an unknown type.
  - Created and modified files are scheduled only when their extension is
    `.xlsx`. Deleted files are scheduled when it is `.xlsx`, `.knfo` or
    `.meta`. A missing key defaults to the empty string.
  - `ScheduledPaths` is the pure reference for which paths one message hands
    to batching, in call order.
- **Batching** (class `Client.AnalysisClient`, file `client.dfy`). The class
  holds the fields the Python object updates in place: `running`,
  `pendingChanges` (the `pending_changes` set), `batchTimerRunning`,
  `lastChangeTime` and `stats`.
  - `batchTaskActive` stands for "`batch_task` exists and is neither done nor
    cancelled".
  - Starting the timer and the timer firing are explicit, sequential
    operations: `ScheduleAnalysis` starts it, `BatchedExecute` is the firing.
  - The clock is a parameter: `now` for one call, `nows` (one time per
    message) for a run of messages.
  - `Stop` takes whether an event loop is running when it is called;
    `CloseLoop` is the end of the event loop, which cancels the batch task.
- **Stats bookkeeping** (module `ClientStats`, file `stats.dfy`). The scan
  request is abstracted to the HTTP library present (`Aiohttp` or `Urllib`)
  and its outcome: `Responded(status)`; `Raised`, an exception while sending
  or reading; or `NotSent`, an exception while building the request, before
  anything is sent. `AfterExecution` is the reference for what one request
  does to the counters.
- **Extension summary** (module `ExtensionSummary`, file `summary.dfy`).
  - The lower-cased suffix of every file of a batch is counted into a map by a
    loop over the set (`Tally`), proved equal to the counting function
    `CountsBy`.
  - The suffix follows `pathlib`: the text from the last `.` of the last
    component, when that dot is neither the component's first character nor
    its last (`a.` and `.rc` have no suffix), lower-cased. This is the rule of
    `PurePath.suffix` up to Python 3.13; Python 3.14 also counts a trailing
    dot, so there `a.` has the suffix `.`.
  - The map's items are listed in ascending string order (`SortedItems`).
  - The counts add up to the batch size.

The urllib fallback adds one to `errors` after its inner `try` whatever the
outcome (`cliente_websocket_analysis.py:193`). The model keeps that behaviour
as written, so a successful urllib request counts both a scan and an error.

## Model

| member | source | states |
|---|---|---|
| EventRouting.Schedules | cliente_websocket_analysis.py:226-248 | defines the extension test of each list's loop: `.xlsx` for created and modified entries, `.xlsx`/`.knfo`/`.meta` for deleted ones; `RoutingRules` relates it to the configured lists |
| EventRouting.SingleEventKind | cliente_websocket_analysis.py:259-279 | defines which change kind a single-event type names: `file_created`, `file_modified`, `file_deleted`, and none for every other type |
| EventRouting.GroupsScheduled | cliente_websocket_analysis.py:223-250 | defines the paths of a grouped message: the created loop's, then the modified loop's, then the deleted loop's, a missing list counting as empty; `FilesChangedRouting` characterises it |
| EventRouting.ScheduledPaths | cliente_websocket_analysis.py:208-294 | defines the paths one message hands to scheduling, in call order: the grouped lists for `files_changed`, the single-event rule otherwise; `FilesChangedRouting`, `SingleEventRouting` and `QuietEvents` characterise it, and `ProcessFileEvent` is proved against it |
| EventRouting.AllScheduled | cliente_websocket_analysis.py:313-316 | defines every path a run of messages schedules; `ReceiveMessages` is proved against it |
| EventRouting.RoutingRules | cliente_websocket_analysis.py:55-58 | the extension rule accepts exactly the configured lists: `.xlsx` on creation and modification; `.xlsx`, `.knfo`, `.meta` on deletion. `.knfo`/`.meta` are never accepted on creation or modification, and the empty default extension is never accepted |
| EventRouting.GroupScheduled | cliente_websocket_analysis.py:223-250 | one list's loop schedules at most one path per entry |
| EventRouting.GroupScheduledIff | cliente_websocket_analysis.py:223-250 | a path is scheduled by one list's loop iff some entry carries it with an extension that qualifies for that list's change kind |
| EventRouting.FilesChangedRouting | cliente_websocket_analysis.py:213-252 | in a grouped message a path is scheduled iff a created or modified entry with `.xlsx`, or a deleted entry with `.xlsx`/`.knfo`/`.meta`, carries it |
| EventRouting.FilesChangedIgnoresSingleFields | cliente_websocket_analysis.py:252-256 | a grouped message returns before the single-event branches: its top-level `file_path` and `extension` change nothing |
| EventRouting.SingleScheduled | cliente_websocket_analysis.py:255-294 | a single-event message schedules at most one path |
| EventRouting.SingleEventRouting | cliente_websocket_analysis.py:255-286 | a single event schedules iff it is `file_created`/`file_modified` with `.xlsx` or `file_deleted` with `.xlsx`/`.knfo`/`.meta`. What it schedules is its `file_path` (empty when missing), and a missing extension schedules nothing |
| EventRouting.QuietEvents | cliente_websocket_analysis.py:287-294 | `connected`, `pong`, unknown and missing event types schedule nothing |
| EventRouting.Elements | cliente_websocket_analysis.py:89 | the set of paths added is empty iff no path was scheduled |
| EventRouting.ElementsAppend | cliente_websocket_analysis.py:133 | adding two runs of paths adds the union of their sets |
| EventRouting.GroupScheduledStep | cliente_websocket_analysis.py:223-250 | one more loop iteration appends that entry's path exactly when its extension qualifies |
| Client.LastChange | cliente_websocket_analysis.py:134 | defines the last-change time after a run of messages: the arrival time of the last message that schedules a path, or the previous value |
| Client.LastChangeKept | cliente_websocket_analysis.py:134 | when no message of a run schedules a path, the last-change time is the previous value |
| Client.LastChangeIsLatest | cliente_websocket_analysis.py:134 | when message `k` schedules a path and no later one does, the last-change time is message `k`'s arrival time |
| Client.AnalysisClient.constructor | cliente_websocket_analysis.py:83-98 | a new client is stopped, has nothing pending, no timer, no task, no last change and zeroed stats |
| Client.AnalysisClient.ScheduleAnalysis | cliente_websocket_analysis.py:133-145 | the path joins the pending set, and re-adding a pending path leaves the set as it was. The flag ends up true, and a task is started iff the flag was false. The last-change time is `now` |
| Client.AnalysisClient.ScheduleGroup | cliente_websocket_analysis.py:223-250 | the loop over one list adds exactly that list's scheduled paths and starts at most one timer, only when none was running and some path qualified |
| Client.AnalysisClient.ProcessFileEvent | cliente_websocket_analysis.py:208-294 | `events_received` grows by exactly 1 and no other counter changes. The pending set grows by exactly `ScheduledPaths(e)`, and at most one timer is started, only if none was running. When nothing is scheduled, the pending set, flag, task and last-change time are unchanged |
| Client.AnalysisClient.HandleFilesChanged | cliente_websocket_analysis.py:213-252 | the three list loops add exactly the grouped message's scheduled paths and start at most one timer |
| Client.AnalysisClient.HandleSingleEvent | cliente_websocket_analysis.py:255-294 | the single-event branches add exactly the message's scheduled path, if any, and start at most one timer |
| Client.AnalysisClient.ReceiveMessages | cliente_websocket_analysis.py:313-316 | over a run of messages received within one batch window (no timer fires during the run), each with its own arrival time, `events_received` grows by their number. The pending set grows by every path they schedule, at most one timer is started in the whole run, and the last-change time is `LastChange` of the run |
| Client.AnalysisClient.ExecuteAnalysis | cliente_websocket_analysis.py:154-199 | the counters become `AfterExecution` of the old counters for the backend and outcome; batching state is untouched. The summary returned lists the batch's suffix counts in ascending order |
| Client.AnalysisClient.BatchedExecute | cliente_websocket_analysis.py:106-123 | with paths pending, the batch sent is exactly the pending set at that moment and the counters are updated as one request. Without, nothing is sent and the counters stay. Either way the set ends empty, the flag false and the task finished. It fires only as the live batch task, so never after `Stop` cancelled it or on a client that started no timer. The summary it logs equals the one the request logs, and both are the snapshot's sorted suffix counts |
| Client.AnalysisClient.Stop | cliente_websocket_analysis.py:387-397 | `running` becomes false. With pending paths under a running timer and an event loop running, the paths are snapshotted as the final batch and cleared, and the task is cancelled. With no event loop (so no live task), scheduling the final request raises and the pending set is left as it was. Without pending paths there is no final batch and the task is cancelled. The timer flag and counters are always left as they were |
| Client.AnalysisClient.CloseLoop | cliente_websocket_analysis.py:383 | the end of `asyncio.run` cancels every task: the batch task is no longer live, so its batch is never sent, while the pending set, the timer flag and the counters stay as they were |
| Client.AnalysisClient.InterruptShutdown | cliente_websocket_analysis.py:458-462 | on an interrupt the loop has ended before `stop` runs: the client ends stopped with no live task, no counter moves and the pending paths are never sent, and `stop` raises exactly when paths were pending |
| ClientStats.ReachesOuterHandler | cliente_websocket_analysis.py:167-199 | defines which exceptions reach the outer handler: any exception with the async client, and with the urllib fallback only one raised while building the request outside the inner `try` |
| ClientStats.AfterExecution | cliente_websocket_analysis.py:167-199 | defines the counters after one request; its meaning per backend and outcome is the contract of the three lemmas below, and `ExecuteAnalysis` is proved against it |
| ClientStats.AiohttpRecordsOneOutcome | cliente_websocket_analysis.py:167-177 | with the async client a 200 response counts one scan and no error, and any other outcome one error and no scan |
| ClientStats.UrllibAlwaysCountsAnError | cliente_websocket_analysis.py:179-193 | with the urllib fallback every request counts at least one error. A 200 counts a scan and an error, a non-200 two errors, an exception from sending one error, and a request that could not be built one error and no timestamp |
| ClientStats.ExecutionIsRecorded | cliente_websocket_analysis.py:167-199 | every request raises scans plus errors and leaves `events_received` alone. `last_execution` becomes `now` iff no exception reached the outer handler, unless it already was `now` |
| ExtensionSummary.FileName | cliente_websocket_analysis.py:113 | defines the last path component; `FileNameIsLastComponent` and `FileNameHasNoSeparator` characterise it |
| ExtensionSummary.Lower | cliente_websocket_analysis.py:113 | defines `str.lower` on ASCII letters; `LowerKeeps` states its properties |
| ExtensionSummary.Suffix | cliente_websocket_analysis.py:113 | defines `Path(p).suffix.lower()`; `SuffixIsLastDotTail` relates it to an independent description and `SuffixShape` gives its form |
| ExtensionSummary.FileNameIsLastComponent | cliente_websocket_analysis.py:113 | the last component is the tail of the path right after its last `/`, or the whole path when there is none |
| ExtensionSummary.DottedTailIsLastDot | cliente_websocket_analysis.py:113 | a position that starts a dotted tail is the last `.` of the last component, neither its first nor its last character |
| ExtensionSummary.LastDotIsDottedTail | cliente_websocket_analysis.py:113 | when the last component's last `.` is neither its first nor its last character, that dot starts a dotted tail |
| ExtensionSummary.SuffixIsLastDotTail | cliente_websocket_analysis.py:113 | the suffix is non-empty iff some position starts a dotted tail (a `.` not opening the component, with at least one character and no `.` or `/` after it), and then it is that tail, lower-cased |
| ExtensionSummary.LastIndexOf | cliente_websocket_analysis.py:113 | the index found is -1 or a position of the string |
| ExtensionSummary.LastIndexOfIsLast | cliente_websocket_analysis.py:113 | the index found holds the character and no later position does; -1 means the character does not occur |
| ExtensionSummary.FileNameHasNoSeparator | cliente_websocket_analysis.py:113 | the last path component contains no `/` |
| ExtensionSummary.LowerKeeps | cliente_websocket_analysis.py:113 | lower-casing keeps the length, leaves no upper-case ASCII letter, and keeps each `.` and `/` in place without creating new ones |
| ExtensionSummary.SuffixShape | cliente_websocket_analysis.py:113 | a suffix is empty or a `.` followed by at least one character, with no `/`, no other `.` and no upper-case ASCII letter |
| ExtensionSummary.CountsBy | cliente_websocket_analysis.py:111-114 | defines the number of files per key, by comprehension; `Tally` is proved against it and the lemmas below state its properties |
| ExtensionSummary.ExtensionCounts | cliente_websocket_analysis.py:156-159 | defines the `extensions` dictionary as the counts per `Suffix` |
| ExtensionSummary.CountsPositive | cliente_websocket_analysis.py:111-114 | the counts have exactly the keys that occur in the batch, each with a count of at least 1 |
| ExtensionSummary.FilesWithAdd | cliente_websocket_analysis.py:114 | a new file raises the number of files with key `k` by one exactly when its own key is `k` |
| ExtensionSummary.CountsAddFile | cliente_websocket_analysis.py:114 | adding a new file to a batch bumps the count of its own key (from 0 when absent) and leaves every other entry as it was |
| ExtensionSummary.Tally | cliente_websocket_analysis.py:111-114 | the dictionary-building loop over the set, in whatever order it visits the files, yields the number of files per key |
| ExtensionSummary.CountExtensions | cliente_websocket_analysis.py:156-159 | the `extensions` dictionary maps each lower-cased suffix to the number of files of the batch carrying it |
| ExtensionSummary.StrLess | cliente_websocket_analysis.py:116 | defines Python's string order: by code point, a proper prefix first; the three lemmas below make it a strict total order |
| ExtensionSummary.StrLessIrreflexive | cliente_websocket_analysis.py:116 | no string sorts before itself |
| ExtensionSummary.StrLessTransitive | cliente_websocket_analysis.py:116 | the string order is transitive |
| ExtensionSummary.StrLessTotal | cliente_websocket_analysis.py:116 | of two different strings one sorts before the other |
| ExtensionSummary.MinKey | cliente_websocket_analysis.py:116 | the key chosen is in the set and sorts before every other key |
| ExtensionSummary.AppendSmallest | cliente_websocket_analysis.py:116 | appending the smallest remaining key keeps a sorted listing of the keys taken so far |
| ExtensionSummary.SortedItems | cliente_websocket_analysis.py:116 | `sorted(items())` lists every entry of the map once, with its own count, in strictly ascending key order |
| ExtensionSummary.LastKeyIsLargest | cliente_websocket_analysis.py:116 | the last entry of a sorted listing carries the largest key |
| ExtensionSummary.SortedItemsUnique | cliente_websocket_analysis.py:116 | a map has exactly one sorted listing, so the summary depends on the batch only |
| ExtensionSummary.Summarize | cliente_websocket_analysis.py:111-116 | the summary of a batch lists each suffix with its count, in ascending suffix order |
| ExtensionSummary.CountsWithout | cliente_websocket_analysis.py:111-114 | dropping every file of one key drops exactly that key's entry from the counts |
| ExtensionSummary.DropLastEntry | cliente_websocket_analysis.py:116 | without its last entry a sorted listing of the counts is the sorted listing of the counts of the files with the other keys |
| ExtensionSummary.CountsSumToSize | cliente_websocket_analysis.py:111-116 | the counts of a sorted listing add up to the number of files counted |
| ExtensionSummary.SummaryCountsSumToBatchSize | cliente_websocket_analysis.py:156-162 | the counts of a batch's summary add up to the number of files in the batch |

## Left out

- The WebSocket connect and reconnect loop and the ping loop (`connect`, `send_ping_loop`): network I/O and sleeps. `ReceiveMessages` stands for the loop over received messages only.
- The HTTP POST itself: only the library present and the outcome (a status, an exception while sending, or an exception while building the request) are inputs. The response body and the scan URL are not modelled, so which URLs make building the request raise is not decided by the model.
- With aiohttp, a 200 response whose body is not a JSON object makes `response.json()` or `result.get` raise (`cliente_websocket_analysis.py:171-172`); the model does not look at the body, so such a response has to be given as `Raised`, which the outer handler counts as one error with no timestamp.
- urllib raises `HTTPError` for 4xx and 5xx statuses, so in the running program such a response comes back as an exception. The model lets the caller choose `Responded(status)` or `Raised` and does not decide which one urllib would produce.
- `asyncio.sleep`, `asyncio.create_task` and cancellation timing: the batch delay is not modelled, the timer firing is the call `BatchedExecute`. Interleavings while `execute_analysis` is awaited, including a cancellation during it, are concurrency and not modelled.
- Stop: with an event loop running, the final `execute_analysis` task it creates is not run by the model; its batch is returned as `finalBatch`, and a caller may pass it to `ExecuteAnalysis`. The program's only caller, `main` (`cliente_websocket_analysis.py:458-462`), calls `stop` from its `KeyboardInterrupt` handler, after `asyncio.run` has cancelled every task (the sleeping batch task among them, so that batch is never sent) and closed its event loop, so there `asyncio.create_task` raises `RuntimeError` before the clear; `InterruptShutdown` models that path as `CloseLoop` followed by `Stop` without a loop, and the model returns `raised` for it and does not model the propagation of the exception out of `main` or the skipped `print_stats`.
- JSON decoding and malformed payloads: a message is an already-decoded object whose present values are strings, a `files` object and lists of entry objects; other payloads are not represented. In the program:
  - a message that decodes to something other than an object (`[]`, `"x"`, `5`) raises at `event_data.get` (line 208), before `events_received` is incremented at line 210, so it is not counted; the receive loop logs the exception;
  - in a grouped message, a present `summary` that is not an object (`null`, say) raises while the log line at line 217 is built, and a `files` that is `null` raises at line 223; either way nothing of the message is scheduled, though it was counted;
  - a list entry that is not an object, or a list that is `null`, raises inside `process_file_event`, after the entries before it were already scheduled;
  - a `file_path` that is a list or an object cannot be added to a set: `add` raises at line 133, so that path is not added, no timer starts, and the rest of the message is not scheduled;
  - a `file_path` that is `null`, a number or another hashable non-string is added to `pending_changes` as it is, and the timer starts; when the timer fires, `Path(...)` raises at line 113, before the clear at lines 117-118, so the pending set is never cleared, `batch_timer_running` stays true, and no later change starts a batch.
- The `summary` object of a well-formed grouped message and every log message, including the text rendering of the extension summary (the `', '.join` of f-strings): they only feed logging. The model returns the ordered (suffix, count) items the text is built from.
- `print_stats`, `start` (which sets `running`, checks the directory and runs the event loop), the argparse `main` and logging configuration: process plumbing.
- Suffix: `pathlib` normalisation (repeated or trailing separators, Windows separators) is not modelled; the last component is the text after the last `/`. Lower-casing covers ASCII letters only.
- The clock: every `schedule_analysis` call of one message shares that message's arrival time, where the program reads the clock on each call.
- `last_execution` is an ISO timestamp string in the program and the integer `now` in the model.
- The connection pool, circuit breaker and job scheduler of the wider repository are not part of this model.
