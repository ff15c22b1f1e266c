/**
 * The payload of a `cell_content` event: the whole range, or, for a range of
 * more than 100 cells, its dimensions and a sample of at most 3×3 cells.
 */
module Capture {
  import opened Base
  import opened Config
  import opened Cells
  import opened Events

  /** `m.slice(0, 3).map(row => row.slice(0, 3))`. */
  function Sample(m: Matrix): (r: Matrix)
    ensures |r| <= SampleSize && |r| == Min(SampleSize, |m|)
    ensures forall i :: 0 <= i < |r| ==>
      && |r[i]| <= SampleSize
      && |r[i]| == Min(SampleSize, |m[i]|)
      && r[i] <= m[i]
  {
    var rows := m[..Min(SampleSize, |m|)];
    seq(|rows|, i requires 0 <= i < |rows| => rows[i][..Min(SampleSize, |rows[i]|)])
  }

  /** The data of the `cell_content` event that `captureCellContent` queues for a range. */
  function ContentPayload(rd: RangeReading): (p: Payload)
    ensures p.IsLargeRange() <==> rd.rowCount * rd.columnCount > LargeRangeCells
    ensures p.LargeRangeSample? || p.FullContent?
    ensures p.address == rd.address && p.rowCount == rd.rowCount && p.columnCount == rd.columnCount
    ensures p.LargeRangeSample? ==>
      && |p.sampleValues| == Min(SampleSize, |rd.values|)
      && |p.sampleFormulas| == Min(SampleSize, |rd.formulas|)
      && (forall i :: 0 <= i < |p.sampleValues| ==>
            |p.sampleValues[i]| == Min(SampleSize, |rd.values[i]|) && p.sampleValues[i] <= rd.values[i])
      && (forall i :: 0 <= i < |p.sampleFormulas| ==>
            |p.sampleFormulas[i]| == Min(SampleSize, |rd.formulas[i]|) && p.sampleFormulas[i] <= rd.formulas[i])
    ensures p.FullContent? ==>
      p.values == rd.values && p.formulas == rd.formulas && p.numberFormat == rd.numberFormat
  {
    if rd.rowCount * rd.columnCount > LargeRangeCells then
      LargeRangeSample(rd.address, rd.rowCount, rd.columnCount, Sample(rd.values), Sample(rd.formulas))
    else
      FullContent(rd.address, rd.rowCount, rd.columnCount, rd.values, rd.formulas, rd.numberFormat)
  }
}
