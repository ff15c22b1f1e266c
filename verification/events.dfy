/** The events the logger queues and the payloads they carry. */
module Events {
  import opened Base
  import opened Cells

  /**
   * The tags of the events that go through the queue, sent on the wire as
   * `selection_changed`, `document_selection_changed`, `sheet_activated`,
   * `sheet_deactivated`, `workbook_saved`, `workbook_info`, `cell_edit` and
   * `cell_content`.
   */
  datatype EventType =
    | SelectionChanged
    | DocumentSelectionChanged
    | SheetActivated
    | SheetDeactivated
    | WorkbookSaved
    | WorkbookInfo
    | CellEdit
    | CellContent

  /** One changed cell reported by the change detector; `None` stands for a missing formula. */
  datatype CellChange = CellChange(
    row: nat,
    column: nat,
    previousValue: Cell,
    currentValue: Cell,
    previousFormula: Option<Cell>,
    currentFormula: Option<Cell>)

  /** The `data` of an event. Payloads built by host wrappers outside the model are `HostData`. */
  datatype Payload =
    | CellEditData(address: string, changes: seq<CellChange>, isFormula: bool,
                   currentValues: Matrix, currentFormulas: Matrix)
    | FullContent(address: string, rowCount: nat, columnCount: nat,
                  values: Matrix, formulas: Matrix, numberFormat: Matrix)
    | LargeRangeSample(address: string, rowCount: nat, columnCount: nat,
                       sampleValues: Matrix, sampleFormulas: Matrix)
    | SelectionData(address: string, columns: nat, rows: nat, cellCount: nat)
    | HostData(description: string)
  {
    /** The `is_large_range` flag of a `cell_content` payload. */
    predicate IsLargeRange() {
      LargeRangeSample?
    }
  }

  /** A queued event: immutable once created. */
  datatype Event = Event(eventType: EventType, timestamp: nat, data: Payload)
}
