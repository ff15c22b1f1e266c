# Excel logger delivery core, modelled in Dafny

This project models the delivery core of the Flingoos Excel logger add-in
(`taskpane.js`). The add-in watches a workbook, queues interaction events and
posts them in batches to a local listener. The core is a small sequential state
machine. The module-level variables of the script (`isLogging`, `batchInterval`,
`connectionStatus`, `retryCount`, `retryStartTime`, `lastContentCapture`,
`eventQueue`, `lastSelection`, `lastCellValues`) become one immutable record,
`Client.State`. Every handler and callback becomes a pure transition on it. The
clock (`Date.now()`) is a `nat` parameter, and the outcome of a `fetch` is a
boolean parameter.

Modules:

- `Config`: the constants (throttle window, the three retry tiers, the large-range bound).
- `Retry`: the tier table of `retryWithBackoff` and the whole-seconds recomputation the status display does.
- `Cells`, `Events`: cells, matrices, the host's range reading, and the queued events with their payloads.
- `CellDiff`: the positional matrix diff of `checkForCellChanges`.
- `Capture`: the `cell_content` payload, full or a 3×3 sample for ranges over 100 cells.
- `Client`: the state record and all transitions:
  - probe continuation, status update and retry scheduler;
  - `startLogging` and `stopLogging`;
  - `queueEvent` and the two halves of `sendEventBatch`;
  - the capture throttle, the change-detector poll and the selection handler.
- `Delivery`, `Monitor`, `Throttle`, `Detector`: properties that span several calls. These are:
  - conservation and ordering of events across sends that do not overlap, and the reordering when they do;
  - failure streaks and reconnection;
  - idempotence of the lifecycle;
  - the throttle window;
  - the change detector across two polls.

`sendEventBatch` suspends at its `fetch`, so it is split in two. `BeginSend` takes
the whole queue as the batch and empties the live queue. `CompleteSend(batch, ok)`
runs when the request resolves. Between the two, any number of `queueEvent` calls
may run (`Delivery.QueueAll`). That is where the re-queue order matters.

Two details of the code shape the model:

- Sends go on while the client is disconnected. `sendEventBatch` has no connection
  check (taskpane.js:505-510), and nothing clears the batch timer on a
  disconnection. So every tick with a non-empty queue attempts a send. The model's
  `BeginSend` likewise ignores `status`.
- `checkServerConnection` resets `retryCount` a second time after
  `updateConnectionStatus('connected')` (taskpane.js:62-63). The model keeps both
  resets. The second one is redundant.

## Model

| member | source | states |
|---|---|---|
| Retry.NextRetry | taskpane.js:89-107 | under 900000 ms elapsed the plan is 1000 ms / tier 1, under 1800000 ms it is 3000 ms / tier 2, otherwise 60000 ms / tier 3; the interval is always positive (retries never stop) and at most one minute |
| Retry.DisplayTierAgrees | taskpane.js:127-136 | the tier the status display derives from `Math.floor(elapsed / 1000)` seconds equals the millisecond tier of the scheduler for every elapsed value, negative ones included |
| Retry.IntervalMonotone | taskpane.js:93-107 | a later point of the streak never gets a shorter interval or a lower tier |
| Retry.TierBoundaries | taskpane.js:15-19 | at 14:59.999 the wait is 1 s, at 15:00 it is 3 s, at 29:59.999 still 3 s, at 30:00 it is 60 s |
| Cells.HasFormula | taskpane.js:312-314 | the `is_formula` flag is true exactly when some cell of the formula matrix is a string starting with `=` |
| CellDiff.DiffColumns | taskpane.js:287-302 | the inner loop reports, in increasing column order, exactly the cells from column j on that differ, each with its own before/after value and formula |
| CellDiff.DiffRows | taskpane.js:285-304 | the outer loop reports, in row-major order, exactly the differing cells of rows i on whose lengths agree; a row of unequal lengths contributes nothing |
| CellDiff.ChangedCells | taskpane.js:282-305 | cell (i, j) is reported exactly when the outer lengths agree, row i's lengths agree, j is inside the row, and the value differs or both formula matrices exist and differ there; each record carries that cell's contents; no position is reported twice |
| CellDiff.IdenticalReadingsReportNothing | taskpane.js:282-305 | polling an unchanged range reports no change |
| CellDiff.OneEditInTwoByTwo | taskpane.js:288-300 | a 2×2 range with one changed value yields one record naming that row, column and the old and new value |
| Capture.Sample | taskpane.js:621-622 | the sample has at most 3 rows, each at most 3 cells and a prefix of the original row, and is as large as those bounds allow |
| Capture.ContentPayload | taskpane.js:618-644 | a range with rowCount×columnCount over 100 gives an `is_large_range` payload with the dimensions and, for values and formulas, the first min(3, rows) rows each cut to its first min(3, length) cells; any other range gives the full values, formulas and number formats |
| Client.UpdateConnectionStatus | taskpane.js:114-144 | connecting resets retry count and streak start to 0; disconnecting changes only the status and shows the attempt number with the scheduler's tier during a streak, plain "disconnected" otherwise |
| Client.RetryWithBackoff | taskpane.js:80-111 | every call counts exactly one more attempt; the first retry of a streak stamps its start with now, later ones keep it; the plan is the tier of the streak's age; nothing else changes |
| Client.ProbeCompleted | taskpane.js:59-76 | a reachable probe leaves the client connected, with zeroed retry bookkeeping, logging, and its queue intact; an unreachable one leaves it disconnected with one more attempt counted, shows the status display's disconnected view, and schedules a retry by the streak's age; no other field changes in either case |
| Client.StartLogging | taskpane.js:147-173 | logging starts, with its batch timer, exactly when connected and not already logging; in every other case nothing changes |
| Client.StopLogging | taskpane.js:176-201 | a no-op when not logging; otherwise logging and the timer stop, the queue is emptied into a final send that begins exactly when it is non-empty, and no other field changes |
| Client.QueueEvent | taskpane.js:491-502 | while logging the event with the given tag, the current time and the data is appended at the back; otherwise the queue is untouched |
| Client.BeginSend | taskpane.js:505-510 | an empty queue sends nothing and changes nothing; otherwise the batch is the whole queue and the live queue becomes empty |
| Client.CompleteSend | taskpane.js:523-540 | success discards the batch and leaves everything else as it is; failure puts the batch in front of the events queued meanwhile, marks the client disconnected and issues a probe |
| Client.CaptureCellContent | taskpane.js:611-645 | while logging exactly one `cell_content` event with the range's payload is queued; otherwise nothing |
| Client.CaptureContentIfNeeded | taskpane.js:579-592 | a capture happens exactly when now − lastContentCapture > 200; it sets lastContentCapture to now; a rejected call changes no state |
| Client.CheckForCellChanges | taskpane.js:256-338 | inactive polls change nothing; an active poll queues a `cell_edit` carrying the diff iff the diff against the address's snapshot is non-empty; a second event, the range's `cell_content`, follows exactly when an edit fires and the throttle window has passed, and only then does lastContentCapture move to now; the snapshot is replaced on every active poll (the capture does not throw); no other field changes |
| Client.CheckForCellChangesAsWritten | taskpane.js:262-328 | on a host that throws on an unloaded property: when an edit fires and the window has passed, only the `cell_edit` is queued, the window still moves to now, and the snapshot is left stale, with no other field changed; in every other case the poll is `CheckForCellChanges` |
| Client.OnSelectionChanged | taskpane.js:368-399 | a selection is recorded and its snapshot seeded; while logging a `selection_changed` event with the dimensions and cell count is queued first, and the range's `cell_content` follows exactly when the throttle window has passed; lastContentCapture moves to now whenever the window has passed, even when not logging; logging, status, retry fields and the timer are untouched |
| Client.StepPreservesValid | taskpane.js:114-122 | the initial state is valid, and every transition keeps retry bookkeeping at zero while connected, a zero count without a streak start, and the batch timer set exactly while logging |
| Delivery.QueueAll | taskpane.js:491-502 | a run of enqueues while logging appends the stamped events at the back in call order |
| Delivery.SendWithConcurrentEnqueues | taskpane.js:505-540 | with events queued while a send is in flight, failure leaves `batch ++ new events`, the same multiset as old plus new, and a disconnected client; success leaves only the new events |
| Delivery.RetriedBatchGoesFirst | taskpane.js:526-536 | after a failed send, the next batch is the failed batch, then the events queued during it, then those queued after it |
| Delivery.RoundConserves | taskpane.js:505-540 | one tick's delivered events followed by the remaining queue equal the old queue followed by the tick's new events |
| Delivery.NoLossNoDuplication | taskpane.js:505-540 | over any run of successful and failed sends that do not overlap, delivered events followed by the remaining queue equal the initial queue followed by every event queued since, in order |
| Delivery.NothingDuplicated | taskpane.js:505-540 | the same conservation law as multisets: each event is delivered or still queued, exactly once |
| Delivery.OverlappingSendsReorder | taskpane.js:505-540 | with queue [a, b], a second send begun while the first is pending (after c is queued) and both failing, d queued in between, the queue ends as [c, a, b, d]: the later batch is re-queued in front of the earlier one |
| Detector.RepeatedEditAsWritten | taskpane.js:262-328 | as written, an edit found with the window passed is reported again, with the same changes, by the poll one second later |
| Detector.EditReportedOnce | taskpane.js:324-328 | with the snapshot replaced, a second poll of the same reading queues nothing |
| Detector.SelectionThenPollQuiet | taskpane.js:368-399 | a selection seeds its snapshot, so a poll of the same reading right after it queues nothing, whatever the state before |
| Monitor.FailAll | taskpane.js:59-111 | a run of failed probes schedules one retry per failure |
| Monitor.FailureStreak | taskpane.js:80-107 | after n failures the count has grown by n, the streak is measured from its first failure, the client is disconnected with its queue intact, and each retry uses the tier of the streak's age at that failure |
| Monitor.IntervalsEscalate | taskpane.js:93-107 | with a non-decreasing clock, successive retry intervals of a streak never shrink |
| Monitor.ShortOutage | taskpane.js:59-65 | failures within 15 minutes of a fresh streak's start all retry every second, and a later successful probe resets the count and leaves the client connected and logging |
| Monitor.StartLoggingIdempotent | taskpane.js:147-158 | starting twice equals starting once, and the second call reports no start |
| Monitor.StopLoggingIdempotent | taskpane.js:176-179 | stopping twice equals stopping once, and the second stop flushes nothing |
| Monitor.ReachableStatesValid | taskpane.js:114-122 | every state reached from a valid state by any sequence of transitions is valid |
| Throttle.AtMostOneCaptureInWindow | taskpane.js:579-582 | two `captureContentIfNeeded` requests at most 200 ms apart (a gap of exactly 200 ms included) yield at most one capture |
| Throttle.SpacedCapturesAccepted | taskpane.js:579-582 | requests more than 200 ms apart, the first one due, are both captured |
| Throttle.CaptureQueuesOneEvent | taskpane.js:579-592 | an accepted capture queues exactly one event while logging and none otherwise |

## Left out

- HTTP and JSON (taskpane.js:48-58, 512-522). The probe and batch requests are network I/O. A request's outcome is the `ok` parameter, and a transport error is the same as a non-ok status.
- Timers and the clock. `setTimeout`, `setInterval` and `clearInterval` are represented by:
  - the returned `RetryPlan` for "retry after N ms";
  - `batchTimerSet` for the batch interval;
  - `reprobe` for the probe that a failed send issues.
  Each synchronous continuation reads one `now`, even where the source calls `Date.now()` twice.
- Async interleaving. Probes and sends are not awaited, so their continuations may resolve in any order. For example, each failed send starts a new probe chain while earlier chains are still retrying. The model covers one send's begin/complete split and arbitrary enqueues in between. It does not model a scheduler of concurrent chains. The detector interval that `registerExcelEventHandlers` registers again on every start (taskpane.js:248) is also left out.
- Delivery.NoLossNoDuplication: covers only sends that do not overlap. The 1000 ms batch timer (taskpane.js:169) can start a send while an earlier one is still pending. When both fail, the batches return out of order (`Delivery.OverlappingSendsReorder`). Nothing is lost or duplicated even then, but queue order is not kept.
- Host API wrappers. These are `Excel.run`, `load` and `sync`, handler (un)registration, `logWorkbookInfo`, `handleDocumentSelectionChanged`, `handleSheetActivated`/`Deactivated` and `handleWorkbookSaved`. Apart from the capture below, they only read host state and call `queueEvent`, and their payloads appear as `HostData`. Host errors caught by `handleError` are not modelled.
- `captureActiveSelectionContent` (taskpane.js:595-607) runs on logging start (taskpane.js:231) and on sheet activation (taskpane.js:433). It is modelled as `Step.DirectCapture`, which is `CaptureCellContent`: no throttle and no window update. So the program does not limit `cell_content` events to one per 200 ms window. The `Throttle` lemmas bound `captureContentIfNeeded` calls only.
- The UI. This covers `innerHTML`, `appendToLog` message filtering and its 5-entry trimming. The status display is returned as a `StatusView` value.
- JavaScript values. A cell is a value with structural equality, so `!==` on mixed types, NaN and floating point are not modelled. Numbers are integers. `null` and `undefined` formulas are both `None`.
- CellDiff.ChangedCells: a formula matrix that lacks a row present in the values matrix would make the source throw a TypeError. The model reads that position as absent instead. The host always supplies formulas with the shape of the values.
- Client.CheckForCellChanges: assumes the capture after an edit does not throw. The detector's range read loads no `rowCount`/`columnCount` (taskpane.js:262), but `captureCellContent` reads them (taskpane.js:619). If the host throws there, the snapshot update (taskpane.js:324-328) is skipped and the same edit is reported on every later poll. That variant is `Client.CheckForCellChangesAsWritten`; see Findings.
- Client.CaptureContentIfNeeded: when the range has no loaded values, the source reads the active selection itself (taskpane.js:587-589). Every caller in the file passes a loaded range, so the model always captures the given reading.

## Findings

| source | as written | input that shows it | evidently intended | confidence | as-written member | corrected member |
|---|---|---|---|---|---|---|
| taskpane.js:262-328 | the detector loads only address, values and formulas (262), yet the capture it triggers (320) reads `rowCount`/`columnCount` (619) before the snapshot update (324-328) | an active poll whose reading differs from the address's snapshot, more than 200 ms after the last capture, followed by a poll of the same reading 1000 ms later | each edit is reported once, and the snapshot is replaced after every poll | not executed; depends on the host throwing on an unloaded property | Detector.RepeatedEditAsWritten | Detector.EditReportedOnce |
