/** The deviation mask: the rows whose reading lies strictly further than a
    fixed threshold from the sensor's mean. */
module Deviation {
  import opened Wrappers
  import opened Frame

  /** The fixed deviation threshold of the report. */
  const Threshold: real := 15.0

  /** `(df[col] > mean + threshold) | (df[col] < mean - threshold)` for one
      cell; a missing cell compares false on both sides. The two comparisons
      together say that the distance from the mean exceeds the threshold. */
  predicate IsDeviation(v: Option<real>, mean: real, threshold: real): (far: bool)
    ensures far <==> v.Some? && Abs(v.value - mean) > threshold
  {
    v.Some? && (v.value > mean + threshold || v.value < mean - threshold)
  }

  /** Absolute value. */
  function Abs(x: real): real {
    if x < 0.0 then -x else x
  }

  /** With the report's threshold, a reading exactly 15 above or below the
      mean is not a deviation, a missing reading never is, and anything
      further out is. */
  lemma DeviationBoundary(mean: real, x: real)
    ensures !IsDeviation(Some(mean + Threshold), mean, Threshold)
    ensures !IsDeviation(Some(mean - Threshold), mean, Threshold)
    ensures !IsDeviation(None, mean, Threshold)
    ensures x > mean + Threshold || x < mean - Threshold ==> IsDeviation(Some(x), mean, Threshold)
  {
  }

  /** The rows selected by the deviation mask, in input order. */
  function DeviationRows(rows: seq<Row>, col: string, mean: real, threshold: real): (flagged: seq<Row>)
    ensures |flagged| <= |rows|
  {
    if rows == [] then []
    else if IsDeviation(Cell(rows[0], col), mean, threshold) then
      [rows[0]] + DeviationRows(rows[1..], col, mean, threshold)
    else DeviationRows(rows[1..], col, mean, threshold)
  }

  /** Every flagged row is a deviation, and the flagged rows keep the order
      of the input rows. */
  lemma {:induction false} DeviationRowsFlagged(rows: seq<Row>, col: string, mean: real, threshold: real)
    ensures forall i :: 0 <= i < |DeviationRows(rows, col, mean, threshold)| ==>
      IsDeviation(Cell(DeviationRows(rows, col, mean, threshold)[i], col), mean, threshold)
    ensures SubsequenceOf(DeviationRows(rows, col, mean, threshold), rows)
  {
    if rows != [] {
      DeviationRowsFlagged(rows[1..], col, mean, threshold);
    }
  }

  /** A row is flagged exactly when it is among the rows and its cell is a
      deviation. */
  lemma {:induction false} DeviationRowsKeep(rows: seq<Row>, col: string, mean: real, threshold: real, row: Row)
    ensures row in DeviationRows(rows, col, mean, threshold) <==> row in rows && IsDeviation(Cell(row, col), mean, threshold)
  {
    DeviationRowsFlagged(rows, col, mean, threshold);
    if rows != [] {
      DeviationRowsKeep(rows[1..], col, mean, threshold, row);
      assert rows == [rows[0]] + rows[1..];
    }
  }

  /** How many of the values are further than `threshold` from `mean`. */
  function CountFar(xs: seq<real>, mean: real, threshold: real): nat {
    if xs == [] then 0
    else (if Abs(xs[0] - mean) > threshold then 1 else 0) + CountFar(xs[1..], mean, threshold)
  }

  /** The number of flagged rows is the number of present values of the
      column at distance more than the threshold from the mean. */
  lemma {:induction false} DeviationCountIsFarValues(rows: seq<Row>, col: string, mean: real, threshold: real)
    ensures |DeviationRows(rows, col, mean, threshold)| == CountFar(Readings(rows, col), mean, threshold)
  {
    if rows != [] {
      DeviationCountIsFarValues(rows[1..], col, mean, threshold);
      var v := Cell(rows[0], col);
    }
  }
}
