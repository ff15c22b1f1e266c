/**
 * The delivery state machine of the logger: connection monitor, event queue,
 * batch dispatcher, content-capture throttle and change detector, as pure
 * transitions over one immutable state record. Clock readings and network
 * outcomes are parameters.
 */
module Client {
  import opened Base
  import opened Config
  import opened Cells
  import opened Events
  import opened Retry
  import opened Capture
  import CellDiff

  datatype Status = Disconnected | Connected

  /** The last-seen values and formulas of one range address. */
  datatype Snapshot = Snapshot(values: Matrix, formulas: Matrix)

  /**
   * The module-level variables of the logger. `batchTimerSet` stands for
   * `batchInterval !== null`; `hasLastSelection` for `lastSelection` being set.
   */
  datatype State = State(
    isLogging: bool,
    batchTimerSet: bool,
    status: Status,
    retryCount: nat,
    retryStartTime: nat,
    lastContentCapture: nat,
    queue: seq<Event>,
    hasLastSelection: bool,
    lastCellValues: map<string, Snapshot>)

  const Initial: State := State(false, false, Disconnected, 0, 0, 0, [], false, map[])

  /**
   * What every reachable state satisfies: retry bookkeeping reads zero while
   * connected, a zero retry count has no streak start, and the batch timer runs
   * exactly while logging.
   */
  predicate Valid(s: State) {
    && (s.status == Connected ==> s.retryCount == 0 && s.retryStartTime == 0)
    && (s.retryCount == 0 ==> s.retryStartTime == 0)
    && (s.isLogging <==> s.batchTimerSet)
  }

  // ---------------------------------------------------------------------------
  // Connection monitor

  /** What the status element shows. */
  datatype StatusView = ShowConnected | ShowDisconnected | ShowRetrying(attempt: nat, tier: nat)

  datatype StatusUpdate = StatusUpdate(state: State, view: StatusView)

  /**
   * `updateConnectionStatus`: records the status; a connection resets the retry
   * bookkeeping; a disconnection during a streak shows the attempt number and the
   * tier recomputed, from whole seconds, at time `now`.
   */
  function UpdateConnectionStatus(s: State, status: Status, now: nat): (u: StatusUpdate)
    ensures u.state.status == status
    ensures status == Connected ==>
      u.state == s.(status := Connected, retryCount := 0, retryStartTime := 0) && u.view == ShowConnected
    ensures status == Disconnected ==> u.state == s.(status := Disconnected)
    ensures status == Disconnected && s.retryCount > 0 ==>
      u.view == ShowRetrying(s.retryCount, NextRetry(now - s.retryStartTime).tier)
    ensures status == Disconnected && s.retryCount == 0 ==> u.view == ShowDisconnected
  {
    if status == Connected then
      StatusUpdate(s.(status := Connected, retryCount := 0, retryStartTime := 0), ShowConnected)
    else
      assert status == Disconnected;
      if s.retryCount > 0 then
        DisplayTierAgrees(now - s.retryStartTime);
        StatusUpdate(s.(status := Disconnected), ShowRetrying(s.retryCount, DisplayTier(now - s.retryStartTime)))
      else
        StatusUpdate(s.(status := Disconnected), ShowDisconnected)
  }

  datatype Retried = Retried(state: State, plan: RetryPlan)

  /**
   * `retryWithBackoff`: the first retry of a streak stamps its start; every call
   * counts one more attempt; the plan follows the tier of the streak's age.
   */
  function RetryWithBackoff(s: State, now: nat): (r: Retried)
    ensures r.state.retryCount == s.retryCount + 1
    ensures s.retryCount == 0 ==> r.state.retryStartTime == now
    ensures s.retryCount != 0 ==> r.state.retryStartTime == s.retryStartTime
    ensures r.plan == NextRetry(now - r.state.retryStartTime)
    ensures r.state == s.(retryCount := r.state.retryCount, retryStartTime := r.state.retryStartTime)
  {
    var start := if s.retryCount == 0 then now else s.retryStartTime;
    Retried(s.(retryCount := s.retryCount + 1, retryStartTime := start), NextRetry(now - start))
  }

  // ---------------------------------------------------------------------------
  // Logging lifecycle

  datatype StartOutcome = Started | NotConnected | AlreadyLogging

  datatype Lifecycle = Lifecycle(state: State, outcome: StartOutcome)

  /**
   * `startLogging`: only a connected client that is not logging starts; starting
   * turns logging on and sets the batch timer. Handler registration and the
   * initial workbook read are host calls the `Started` outcome stands for.
   */
  function StartLogging(s: State): (r: Lifecycle)
    ensures r.outcome == Started <==> s.status == Connected && !s.isLogging
    ensures r.outcome == NotConnected <==> s.status != Connected
    ensures r.outcome != Started ==> r.state == s
    ensures r.outcome == Started ==> r.state == s.(isLogging := true, batchTimerSet := true)
  {
    if s.status != Connected then Lifecycle(s, NotConnected)
    else if s.isLogging then Lifecycle(s, AlreadyLogging)
    else Lifecycle(s.(isLogging := true, batchTimerSet := true), Started)
  }

  // ---------------------------------------------------------------------------
  // Event queue and batch dispatcher

  /** `queueEvent`: appends a stamped event while logging, otherwise drops it. */
  function QueueEvent(s: State, eventType: EventType, data: Payload, now: nat): (s': State)
    ensures !s.isLogging ==> s' == s
    ensures s.isLogging ==> s' == s.(queue := s.queue + [Event(eventType, now, data)])
  {
    if !s.isLogging then s
    else s.(queue := s.queue + [Event(eventType, now, data)])
  }

  datatype Dispatch = Dispatch(state: State, batch: Option<seq<Event>>)

  /**
   * The synchronous part of `sendEventBatch`: an empty queue sends nothing;
   * otherwise the whole queue becomes the batch and the live queue is emptied.
   */
  function BeginSend(s: State): (d: Dispatch)
    ensures d.batch.None? <==> |s.queue| == 0
    ensures d.batch.None? ==> d.state == s
    ensures d.batch.Some? ==> d.batch.value == s.queue && d.state == s.(queue := [])
  {
    if |s.queue| == 0 then Dispatch(s, None)
    else Dispatch(s.(queue := []), Some(s.queue))
  }

  /** The resumed part of `sendEventBatch`; `reprobe` stands for the `checkServerConnection()` call. */
  datatype Completion = Completion(state: State, view: Option<StatusView>, reprobe: bool)

  /**
   * On success the batch is delivered and nothing changes; on failure the batch
   * goes back in front of whatever was queued during the send, the client is
   * marked disconnected and a probe is issued.
   */
  function CompleteSend(s: State, batch: seq<Event>, ok: bool, now: nat): (c: Completion)
    ensures ok ==> c.state == s && c.view == None && !c.reprobe
    ensures !ok ==> c.state == s.(queue := batch + s.queue, status := Disconnected) && c.reprobe
    ensures !ok ==> c.view == Some(UpdateConnectionStatus(s, Disconnected, now).view)
  {
    if ok then Completion(s, None, false)
    else
      var u := UpdateConnectionStatus(s.(queue := batch + s.queue), Disconnected, now);
      Completion(u.state, Some(u.view), true)
  }

  datatype Stopped = Stopped(state: State, flushed: Option<seq<Event>>)

  /**
   * `stopLogging`: a no-op unless logging; otherwise logging and the batch timer
   * stop, and a final send is begun exactly when the queue is non-empty.
   */
  function StopLogging(s: State): (r: Stopped)
    ensures !s.isLogging ==> r.state == s && r.flushed == None
    ensures s.isLogging ==> !r.state.isLogging && !r.state.batchTimerSet
    ensures s.isLogging ==> (r.flushed.Some? <==> |s.queue| > 0)
    ensures r.flushed.Some? ==> r.flushed.value == s.queue
    ensures s.isLogging ==> r.state.queue == [] && r.state.status == s.status
    ensures s.isLogging ==> r.state.retryCount == s.retryCount && r.state.lastCellValues == s.lastCellValues
    ensures s.isLogging ==> r.state == s.(isLogging := false, batchTimerSet := false, queue := [])
  {
    if !s.isLogging then Stopped(s, None)
    else
      var s1 := s.(isLogging := false, batchTimerSet := false);
      if |s1.queue| > 0 then
        var d := BeginSend(s1);
        Stopped(d.state, d.batch)
      else Stopped(s1, None)
  }

  datatype ProbeOutcome = Reconnected(start: StartOutcome) | RetryScheduled(plan: RetryPlan)

  datatype Probed = Probed(state: State, view: StatusView, outcome: ProbeOutcome)

  /**
   * The continuation of `checkServerConnection`. Reachable: connected, retry
   * bookkeeping reset, logging started if it was off. Unreachable (error status or
   * transport failure alike): disconnected, and one more retry is scheduled.
   */
  function ProbeCompleted(s: State, ok: bool, now: nat): (p: Probed)
    ensures ok ==>
      && p.state.status == Connected && p.state.retryCount == 0 && p.state.retryStartTime == 0
      && p.state.isLogging && (!s.isLogging ==> p.state.batchTimerSet)
      && p.state.queue == s.queue && p.view == ShowConnected
      && p.outcome == Reconnected(if s.isLogging then AlreadyLogging else Started)
    ensures ok ==> p.state == s.(status := Connected, retryCount := 0, retryStartTime := 0, isLogging := true,
                                 batchTimerSet := if s.isLogging then s.batchTimerSet else true)
    ensures !ok ==> p.state == s.(status := Disconnected, retryCount := s.retryCount + 1,
                                  retryStartTime := if s.retryCount == 0 then now else s.retryStartTime)
    ensures !ok ==> p.view == UpdateConnectionStatus(s, Disconnected, now).view
    ensures !ok ==>
      && p.state.status == Disconnected
      && p.state.retryCount == s.retryCount + 1
      && p.state.retryStartTime == (if s.retryCount == 0 then now else s.retryStartTime)
      && p.state.queue == s.queue && p.state.isLogging == s.isLogging
      && p.outcome == RetryScheduled(NextRetry(now - p.state.retryStartTime))
  {
    if ok then
      var u := UpdateConnectionStatus(s, Connected, now);
      var l := StartLogging(u.state.(retryCount := 0));
      Probed(l.state, u.view, Reconnected(l.outcome))
    else
      var u := UpdateConnectionStatus(s, Disconnected, now);
      var r := RetryWithBackoff(u.state, now);
      Probed(r.state, u.view, RetryScheduled(r.plan))
  }

  // ---------------------------------------------------------------------------
  // Content capture

  /** `captureCellContent`: while logging, queues one `cell_content` event for the range. */
  function CaptureCellContent(s: State, rd: RangeReading, now: nat): (s': State)
    ensures !s.isLogging ==> s' == s
    ensures s.isLogging ==> s' == s.(queue := s.queue + [Event(CellContent, now, ContentPayload(rd))])
  {
    QueueEvent(s, CellContent, ContentPayload(rd), now)
  }

  datatype Throttled = Throttled(state: State, captured: bool)

  /**
   * `captureContentIfNeeded`: a capture is accepted only when strictly more than
   * the throttle window has passed since the last accepted one; an accepted capture
   * moves the window, a rejected one changes nothing.
   */
  function CaptureContentIfNeeded(s: State, rd: RangeReading, now: nat): (t: Throttled)
    ensures t.captured <==> now - s.lastContentCapture > ContentThrottleTime
    ensures !t.captured ==> t.state == s
    ensures t.captured ==> t.state == CaptureCellContent(s.(lastContentCapture := now), rd, now)
  {
    if now - s.lastContentCapture > ContentThrottleTime then
      Throttled(CaptureCellContent(s.(lastContentCapture := now), rd, now), true)
    else
      Throttled(s, false)
  }

  // ---------------------------------------------------------------------------
  // Change detector

  /** The cells of `rd` that changed against the snapshot of the same address; none without one. */
  function Detected(s: State, rd: RangeReading): seq<CellChange> {
    if rd.address in s.lastCellValues then
      var prev := s.lastCellValues[rd.address];
      CellDiff.ChangedCells(prev.values, Some(prev.formulas), rd.values, Some(rd.formulas))
    else []
  }

  /** The `cell_edit` event for a list of changes. */
  function CellEditEvent(rd: RangeReading, changes: seq<CellChange>, now: nat): Event {
    Event(CellEdit, now, CellEditData(rd.address, changes, HasFormula(rd.formulas), rd.values, rd.formulas))
  }

  /** A poll reports an edit: it is active and the diff against the snapshot is non-empty. */
  predicate EditFires(s: State, rd: RangeReading) {
    s.isLogging && s.hasLastSelection && |Detected(s, rd)| > 0
  }

  /** The throttle window has passed at `now`. */
  predicate CaptureDue(s: State, now: nat) {
    now - s.lastContentCapture > ContentThrottleTime
  }

  /**
   * One poll of `checkForCellChanges` given the host's reading of the selection.
   * Inactive (not logging, or no selection seen yet): nothing changes. Active:
   * exactly one `cell_edit` is queued iff the diff against the snapshot is
   * non-empty, followed by one `cell_content` exactly when the throttle window has
   * also passed (which moves the window); otherwise the queue is untouched; the
   * snapshot for the address is replaced either way.
   */
  function CheckForCellChanges(s: State, rd: RangeReading, now: nat): (s': State)
    ensures !s.isLogging || !s.hasLastSelection ==> s' == s
    ensures s.isLogging && s.hasLastSelection ==>
      s'.lastCellValues == s.lastCellValues[rd.address := Snapshot(rd.values, rd.formulas)]
    ensures |s.queue| <= |s'.queue| <= |s.queue| + 2 && s'.queue[..|s.queue|] == s.queue
    ensures EditFires(s, rd) ==>
      && |s'.queue| > |s.queue|
      && s'.queue[|s.queue|] == CellEditEvent(rd, Detected(s, rd), now)
    ensures !EditFires(s, rd) ==> s'.queue == s.queue
    ensures |s'.queue| == |s.queue| + 2 <==> EditFires(s, rd) && CaptureDue(s, now)
    ensures |s'.queue| == |s.queue| + 2 ==> s'.queue[|s.queue| + 1] == Event(CellContent, now, ContentPayload(rd))
    ensures s'.lastContentCapture == if EditFires(s, rd) && CaptureDue(s, now) then now else s.lastContentCapture
    ensures s'.isLogging == s.isLogging && s'.status == s.status && s'.retryCount == s.retryCount
    ensures s.isLogging && s.hasLastSelection ==>
      s' == s.(queue := s'.queue, lastContentCapture := s'.lastContentCapture,
               lastCellValues := s.lastCellValues[rd.address := Snapshot(rd.values, rd.formulas)])
  {
    if !s.isLogging || !s.hasLastSelection then s
    else
      var changes := Detected(s, rd);
      var s1 :=
        if |changes| > 0 then
          CaptureContentIfNeeded(QueueEvent(s, CellEdit, CellEditEvent(rd, changes, now).data, now), rd, now).state
        else s;
      s1.(lastCellValues := s1.lastCellValues[rd.address := Snapshot(rd.values, rd.formulas)])
  }

  /**
   * `checkForCellChanges` as the code is written, on a host that throws when an
   * unloaded property is read: the poll loads no `rowCount`/`columnCount`, so an
   * accepted capture throws inside `captureCellContent` after the `cell_edit` is
   * queued and the window moved, and the snapshot update is skipped. In every
   * other case it is the poll above.
   */
  function CheckForCellChangesAsWritten(s: State, rd: RangeReading, now: nat): (s': State)
    ensures !(EditFires(s, rd) && CaptureDue(s, now)) ==> s' == CheckForCellChanges(s, rd, now)
    ensures EditFires(s, rd) && CaptureDue(s, now) ==>
      && s'.queue == s.queue + [CellEditEvent(rd, Detected(s, rd), now)]
      && s'.lastCellValues == s.lastCellValues
      && s'.lastContentCapture == now
      && s'.isLogging == s.isLogging && s'.hasLastSelection == s.hasLastSelection
    ensures EditFires(s, rd) && CaptureDue(s, now) ==>
      s' == s.(queue := s.queue + [CellEditEvent(rd, Detected(s, rd), now)], lastContentCapture := now)
  {
    if EditFires(s, rd) && CaptureDue(s, now) then
      QueueEvent(s, CellEdit, CellEditEvent(rd, Detected(s, rd), now).data, now).(lastContentCapture := now)
    else
      CheckForCellChanges(s, rd, now)
  }

  /**
   * `handleSelectionChange` given the host's reading: records that a selection was
   * seen, seeds the snapshot for its address, queues `selection_changed` and asks
   * for a throttled content capture, which moves the window whenever it is due,
   * logging or not.
   */
  function OnSelectionChanged(s: State, rd: RangeReading, now: nat): (s': State)
    ensures s'.hasLastSelection
    ensures s'.lastCellValues == s.lastCellValues[rd.address := Snapshot(rd.values, rd.formulas)]
    ensures |s.queue| <= |s'.queue| <= |s.queue| + 2 && s'.queue[..|s.queue|] == s.queue
    ensures s.isLogging ==>
      && |s'.queue| > |s.queue|
      && s'.queue[|s.queue|] == Event(SelectionChanged, now,
           SelectionData(rd.address, rd.columnCount, rd.rowCount, rd.columnCount * rd.rowCount))
    ensures s.isLogging ==> (|s'.queue| == |s.queue| + 2 <==> CaptureDue(s, now))
    ensures |s'.queue| == |s.queue| + 2 ==> s'.queue[|s.queue| + 1] == Event(CellContent, now, ContentPayload(rd))
    ensures !s.isLogging ==> s'.queue == s.queue
    ensures s'.lastContentCapture == if CaptureDue(s, now) then now else s.lastContentCapture
    ensures && s'.isLogging == s.isLogging && s'.status == s.status && s'.retryCount == s.retryCount
            && s'.retryStartTime == s.retryStartTime && s'.batchTimerSet == s.batchTimerSet
  {
    var s1 := s.(hasLastSelection := true,
                 lastCellValues := s.lastCellValues[rd.address := Snapshot(rd.values, rd.formulas)]);
    var s2 := QueueEvent(s1, SelectionChanged,
                         SelectionData(rd.address, rd.columnCount, rd.rowCount, rd.columnCount * rd.rowCount), now);
    CaptureContentIfNeeded(s2, rd, now).state
  }

  // ---------------------------------------------------------------------------
  // All transitions

  /**
   * Every stimulus the state machine reacts to. `Capture` is a call of
   * `captureContentIfNeeded`; `DirectCapture` is `captureActiveSelectionContent`
   * (on logging start and on sheet activation), which reaches `captureCellContent`
   * without the throttle and without moving the window.
   */
  datatype Step =
    | ProbeDone(ok: bool, now: nat)
    | Start
    | Stop
    | Enqueue(eventType: EventType, data: Payload, now: nat)
    | SendBegin
    | SendDone(batch: seq<Event>, ok: bool, now: nat)
    | Capture(rd: RangeReading, now: nat)
    | DirectCapture(rd: RangeReading, now: nat)
    | DetectorPoll(rd: RangeReading, now: nat)
    | SelectionChange(rd: RangeReading, now: nat)

  function Apply(s: State, step: Step): State {
    match step
    case ProbeDone(ok, now) => ProbeCompleted(s, ok, now).state
    case Start => StartLogging(s).state
    case Stop => StopLogging(s).state
    case Enqueue(t, data, now) => QueueEvent(s, t, data, now)
    case SendBegin => BeginSend(s).state
    case SendDone(batch, ok, now) => CompleteSend(s, batch, ok, now).state
    case Capture(rd, now) => CaptureContentIfNeeded(s, rd, now).state
    case DirectCapture(rd, now) => CaptureCellContent(s, rd, now)
    case DetectorPoll(rd, now) => CheckForCellChanges(s, rd, now)
    case SelectionChange(rd, now) => OnSelectionChanged(s, rd, now)
  }

  /** The initial state is valid and every transition keeps validity. */
  lemma StepPreservesValid(s: State, step: Step)
    requires Valid(s)
    ensures Valid(Apply(s, step))
    ensures Valid(Initial)
  {
  }
}
