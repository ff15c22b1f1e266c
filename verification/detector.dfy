/**
 * The change detector across two polls: as written, an edit whose capture throws
 * is reported again on the next poll; with the snapshot replaced, it is reported once,
 * and a poll right after a selection reports nothing.
 */
module Detector {
  import opened Base
  import opened Cells
  import opened Events
  import opened Client
  import CellDiff

  /**
   * As written, an edit found when the throttle window has passed leaves the
   * snapshot stale, so the next poll a second later reports the same changes again.
   */
  lemma RepeatedEditAsWritten(s: State, rd: RangeReading, t: nat)
    requires EditFires(s, rd) && CaptureDue(s, t)
    ensures
      var first := CheckForCellChangesAsWritten(s, rd, t);
      var second := CheckForCellChangesAsWritten(first, rd, t + 1000);
      second.queue == s.queue + [CellEditEvent(rd, Detected(s, rd), t), CellEditEvent(rd, Detected(s, rd), t + 1000)]
  {
    var first := CheckForCellChangesAsWritten(s, rd, t);
    assert Detected(first, rd) == Detected(s, rd);
  }

  /** With the snapshot replaced on every poll, polling an unchanged range again reports nothing. */
  lemma EditReportedOnce(s: State, rd: RangeReading, t: nat, later: nat)
    requires s.isLogging && s.hasLastSelection
    ensures
      var first := CheckForCellChanges(s, rd, t);
      CheckForCellChanges(first, rd, later).queue == first.queue
  {
    var first := CheckForCellChanges(s, rd, t);
    CellDiff.IdenticalReadingsReportNothing(rd.values, Some(rd.formulas));
    assert Detected(first, rd) == [];
  }

  /** A selection seeds its snapshot, so a poll of the same reading right after it queues nothing. */
  lemma SelectionThenPollQuiet(s: State, rd: RangeReading, t: nat, later: nat)
    ensures
      var selected := OnSelectionChanged(s, rd, t);
      CheckForCellChanges(selected, rd, later).queue == selected.queue
  {
    var selected := OnSelectionChanged(s, rd, t);
    CellDiff.IdenticalReadingsReportNothing(rd.values, Some(rd.formulas));
    assert Detected(selected, rd) == [];
  }
}
