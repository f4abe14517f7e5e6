/** Per-sensor statistics, the statistics table, the order of the report's
    elements and the run from the window to the assembled element list. */
module Report {
  import opened Wrappers
  import opened ReportWindow
  import opened Stats
  import opened Frame
  import opened Deviation

  /** The six line colours, used in turn by sensor position. */
  const Palette: seq<string> := ["blue", "orange", "green", "red", "purple", "brown"]

  /** `colors[i % len(colors)]`: the colour of the i-th active sensor. */
  function ColourFor(i: nat): (c: string)
    ensures c in Palette
  {
    Palette[i % |Palette|]
  }

  /** Colours repeat every six sensors, and any six consecutive sensors get
      six different colours. */
  lemma ColourCycle(i: nat, j: nat)
    ensures ColourFor(i + |Palette|) == ColourFor(i)
    ensures i < j < i + |Palette| ==> ColourFor(i) != ColourFor(j)
  {
    if i < j < i + |Palette| {
      assert i % 6 != j % 6;
    }
  }

  /** One row of the statistics table, before the two-decimal formatting. */
  datatype SensorStatistics = SensorStatistics(
    sensor: string,
    min: real,
    max: real,
    average: real,
    mean: real,
    median: real,
    deviations: nat)

  /** The statistics of one active sensor over the filtered rows: min, max,
      mean (printed twice, as "Average" and as "Mean") and median of its
      present readings, and the number of rows the deviation mask selects.
      The line names the sensor, its mean and median lie between its min and
      max, and it counts at most one deviation per row. */
  function StatisticsOf(rows: seq<Row>, col: string): (s: SensorStatistics)
    requires Readings(rows, col) != []
    ensures s.sensor == col && s.average == s.mean
    ensures s.min <= s.mean <= s.max && s.min <= s.median <= s.max
    ensures s.deviations <= |rows|
  {
    var xs := Readings(rows, col);
    var mean := Mean(xs);
    SensorStatistics(col, Min(xs), Max(xs), mean, mean, Median(xs), |DeviationRows(rows, col, mean, Threshold)|)
  }

  /** What else the statistics line of an active sensor promises: its
      minimum and maximum are readings of the sensor that bound all its
      readings, and the deviation count is the number of readings further than
      15 from the mean. */
  lemma StatisticsOfProperties(rows: seq<Row>, col: string)
    requires Readings(rows, col) != []
    ensures var s := StatisticsOf(rows, col);
      && (exists i :: 0 <= i < |rows| && Cell(rows[i], col) == Some(s.min))
      && (exists i :: 0 <= i < |rows| && Cell(rows[i], col) == Some(s.max))
      && (forall i :: 0 <= i < |rows| && Cell(rows[i], col).Some? ==> s.min <= Cell(rows[i], col).value <= s.max)
      && s.deviations == CountFar(Readings(rows, col), s.mean, Threshold)
  {
    var xs := Readings(rows, col);
    DeviationCountIsFarValues(rows, col, Mean(xs), Threshold);
    ReadingsBounds(rows, col, xs);
  }

  /** Four rows whose "C" readings are 0, 0, 0 and 100: the mean is 25, so
      the mask keeps readings above 40 or below 10, and all four rows are
      deviations, the three zeros as well as the 100. */
  lemma {:induction false} ZerosAndHundred(rows: seq<Row>)
    requires |rows| == 4
    requires Cell(rows[0], "C") == Some(0.0) && Cell(rows[1], "C") == Some(0.0)
    requires Cell(rows[2], "C") == Some(0.0) && Cell(rows[3], "C") == Some(100.0)
    ensures Readings(rows, "C") == [0.0, 0.0, 0.0, 100.0]
    ensures StatisticsOf(rows, "C").mean == 25.0
    ensures StatisticsOf(rows, "C").median == 0.0
    ensures StatisticsOf(rows, "C").deviations == 4
  {
    assert rows[3..][1..] == [];
    assert rows[2..][1..] == rows[3..] && rows[1..][1..] == rows[2..];
    assert Readings(rows[3..], "C") == [100.0];
    assert Readings(rows[2..], "C") == [0.0, 100.0];
    assert Readings(rows[1..], "C") == [0.0, 0.0, 100.0];
    var xs := [0.0, 0.0, 0.0, 100.0];
    assert Readings(rows, "C") == xs;
    assert Sum(xs) == 100.0 by {
      assert xs[1..] == [0.0, 0.0, 100.0] && xs[1..][1..] == [0.0, 100.0] && xs[1..][1..][1..] == [100.0];
    }
    assert Mean(xs) == 25.0;
    assert |DeviationRows(rows[3..], "C", 25.0, Threshold)| == 1;
    assert |DeviationRows(rows[2..], "C", 25.0, Threshold)| == 2;
    assert |DeviationRows(rows[1..], "C", 25.0, Threshold)| == 3;
    assert |DeviationRows(rows, "C", 25.0, Threshold)| == 4;
    assert SortAscending(xs) == xs by {
      assert xs[1..] == [0.0, 0.0, 100.0] && xs[1..][1..] == [0.0, 100.0] && xs[1..][1..][1..] == [100.0];
      assert SortAscending([100.0]) == [100.0];
      assert SortAscending([0.0, 100.0]) == [0.0, 100.0];
      assert SortAscending([0.0, 0.0, 100.0]) == [0.0, 0.0, 100.0];
    }
    assert Middle(xs) == Middle([0.0, 0.0]);
  }

  lemma ReadingsBounds(rows: seq<Row>, col: string, xs: seq<real>)
    requires xs == Readings(rows, col) && xs != []
    ensures exists i :: 0 <= i < |rows| && Cell(rows[i], col) == Some(Min(xs))
    ensures exists i :: 0 <= i < |rows| && Cell(rows[i], col) == Some(Max(xs))
    ensures forall i :: 0 <= i < |rows| && Cell(rows[i], col).Some? ==>
      Min(xs) <= Cell(rows[i], col).value <= Max(xs)
  {
    MinIsLeast(xs);
    MaxIsGreatest(xs);
    ReadingsMembers(rows, col, Min(xs));
    ReadingsMembers(rows, col, Max(xs));
    forall i | 0 <= i < |rows| && Cell(rows[i], col).Some?
      ensures Min(xs) <= Cell(rows[i], col).value <= Max(xs)
    {
      ReadingBetween(rows, col, xs, i);
    }
  }

  lemma ReadingBetween(rows: seq<Row>, col: string, xs: seq<real>, i: int)
    requires xs == Readings(rows, col) && xs != []
    requires 0 <= i < |rows| && Cell(rows[i], col).Some?
    ensures Min(xs) <= Cell(rows[i], col).value <= Max(xs)
  {
    var v := Cell(rows[i], col).value;
    ReadingsMembers(rows, col, v);
    var j :| 0 <= j < |xs| && xs[j] == v;
    MinIsLeast(xs);
    MaxIsGreatest(xs);
  }

  /** The column labels of the table's first row. */
  const HeaderLabels: seq<string> :=
    ["Sensor", "Min Value", "Max Value", "Average Value", "Mean Value", "Median Value", "No. Deviations"]

  datatype TableRow = Heading(labels: seq<string>) | SensorLine(stats: SensorStatistics)

  /** A sensor's line in the combined chart. */
  datatype Series = Series(sensor: string, colour: string)

  /** The document's flowables, in the order they are appended. Charts carry
      the image file they are saved to and the data they plot. */
  datatype Element =
    | CombinedChart(path: string, series: seq<Series>)
    | SensorChart(path: string, sensor: string, colour: string, meanLine: real, flagged: seq<Row>)
    | StatisticsTable(table: seq<TableRow>)
    | Spacer(height: nat)

  const CombinedChartPath: string := "combined_data.png"

  /** `f'{col}_data_with_deviations.png'`. */
  function ChartPath(col: string): (p: string)
    ensures p != CombinedChartPath
  {
    col + "_data_with_deviations.png"
  }

  /** Different sensors save their charts to different files. */
  lemma ChartPathsDistinct(a: string, b: string)
    requires a != b
    ensures ChartPath(a) != ChartPath(b)
  {
    if |a| == |b| {
      var k :| 0 <= k < |a| && a[k] != b[k];
      assert ChartPath(a)[k] == a[k] && ChartPath(b)[k] == b[k];
    } else {
      assert |ChartPath(a)| != |ChartPath(b)|;
    }
  }

  /** The chart of the i-th active sensor `col`, saved to its own file: its
      readings in its palette colour, a line at its mean and the rows of the
      deviation mask drawn on top. Its file is not the combined chart's, its
      colour is a palette colour, its mean line lies between the smallest and
      the largest reading, and it flags at most every row. */
  function SensorChartOf(rows: seq<Row>, col: string, i: nat): (c: Element)
    requires Readings(rows, col) != []
    ensures c.SensorChart? && c.sensor == col
    ensures c.path != CombinedChartPath && c.colour in Palette
    ensures Min(Readings(rows, col)) <= c.meanLine <= Max(Readings(rows, col))
    ensures |c.flagged| <= |rows|
  {
    var mean := Mean(Readings(rows, col));
    SensorChart(ChartPath(col), col, ColourFor(i), mean, DeviationRows(rows, col, mean, Threshold))
  }

  /** A sensor's chart and its statistics line agree: the chart's mean line
      is the table's mean, and the table counts the rows the chart flags, all
      of them deviations. */
  lemma ChartMatchesStatistics(rows: seq<Row>, col: string, i: nat)
    requires Readings(rows, col) != []
    ensures SensorChartOf(rows, col, i).meanLine == StatisticsOf(rows, col).mean
    ensures |SensorChartOf(rows, col, i).flagged| == StatisticsOf(rows, col).deviations
    ensures forall r :: r in SensorChartOf(rows, col, i).flagged <==>
      r in rows && IsDeviation(Cell(r, col), StatisticsOf(rows, col).mean, Threshold)
  {
    var mean := Mean(Readings(rows, col));
    forall r ensures r in DeviationRows(rows, col, mean, Threshold) <==>
      r in rows && IsDeviation(Cell(r, col), mean, Threshold)
    {
      DeviationRowsKeep(rows, col, mean, Threshold, r);
    }
  }

  /** The height of the two spacers after the table. */
  const SpacerHeight: nat := 24

  /** The loop of the combined chart: one line per active sensor, in sensor
      order, the i-th in palette colour i. */
  method CombinedSeries(sensors: seq<string>) returns (series: seq<Series>)
    ensures |series| == |sensors|
    ensures forall k :: 0 <= k < |sensors| ==> series[k] == Series(sensors[k], ColourFor(k))
  {
    series := [];
    for i := 0 to |sensors|
      invariant |series| == i
      invariant forall k :: 0 <= k < i ==> series[k] == Series(sensors[k], ColourFor(k))
    {
      series := series + [Series(sensors[i], ColourFor(i))];
    }
  }

  /** The loop over the active sensors: the k-th chart is the k-th sensor's
      chart in palette colour k, and the table is the heading followed by
      one statistics line per sensor, in sensor order. */
  method SensorSections(rows: seq<Row>, sensors: seq<string>) returns (charts: seq<Element>, table: seq<TableRow>)
    requires forall k :: 0 <= k < |sensors| ==> Readings(rows, sensors[k]) != []
    ensures |charts| == |sensors|
    ensures forall k :: 0 <= k < |sensors| ==> charts[k] == SensorChartOf(rows, sensors[k], k)
    ensures |table| == |sensors| + 1 && table[0] == Heading(HeaderLabels)
    ensures forall k :: 0 <= k < |sensors| ==> table[k + 1] == SensorLine(StatisticsOf(rows, sensors[k]))
  {
    charts := [];
    table := [Heading(HeaderLabels)];
    for i := 0 to |sensors|
      invariant |charts| == i
      invariant forall k :: 0 <= k < i ==> charts[k] == SensorChartOf(rows, sensors[k], k)
      invariant |table| == i + 1 && table[0] == Heading(HeaderLabels)
      invariant forall k :: 0 <= k < i ==> table[k + 1] == SensorLine(StatisticsOf(rows, sensors[k]))
    {
      charts := charts + [SensorChartOf(rows, sensors[i], i)];
      table := table + [SensorLine(StatisticsOf(rows, sensors[i]))];
    }
  }

  /** The document's elements in order: the combined chart with one line per
      sensor, the per-sensor charts in sensor order, the statistics table and
      two spacers. */
  method AssembleReport(rows: seq<Row>, sensors: seq<string>) returns (elements: seq<Element>, table: seq<TableRow>)
    requires forall k :: 0 <= k < |sensors| ==> Readings(rows, sensors[k]) != []
    ensures |table| == |sensors| + 1 && table[0] == Heading(HeaderLabels)
    ensures forall k :: 0 <= k < |sensors| ==> table[k + 1] == SensorLine(StatisticsOf(rows, sensors[k]))
    ensures |elements| == |sensors| + 4
    ensures elements[0].CombinedChart? && elements[0].path == CombinedChartPath
    ensures |elements[0].series| == |sensors|
    ensures forall k :: 0 <= k < |sensors| ==> elements[0].series[k] == Series(sensors[k], ColourFor(k))
    ensures forall k :: 0 <= k < |sensors| ==> elements[k + 1] == SensorChartOf(rows, sensors[k], k)
    ensures elements[|sensors| + 1] == StatisticsTable(table)
    ensures elements[|sensors| + 2] == Spacer(SpacerHeight) && elements[|sensors| + 3] == Spacer(SpacerHeight)
  {
    var series := CombinedSeries(sensors);
    var charts;
    charts, table := SensorSections(rows, sensors);
    elements := [CombinedChart(CombinedChartPath, series)] + charts
                + [StatisticsTable(table), Spacer(SpacerHeight), Spacer(SpacerHeight)];
  }

  /** Why a run stops without a report. */
  datatype Failure =
    | MissingTimeColumn   // the dataset has no "Date&Time" column
    | NoSensorColumns     // no column is active in the window
    | MissingHeader       // the header image file does not exist
    | MissingFooter       // the footer image file does not exist

  /** What a successful run has computed for the document. */
  datatype ReportContent = ReportContent(window: Window, rows: seq<Row>, sensors: seq<string>,
                                         elements: seq<Element>, table: seq<TableRow>)

  /** The rows of the dataset inside the window of day `today`. */
  function RowsInWindow(today: int, rows: seq<Row>): (kept: seq<Row>)
    ensures forall i :: 0 <= i < |kept| ==> InWindow(kept[i], WindowFor(today))
  {
    FilterWindow(rows, WindowFor(today))
  }

  /** The script from the window to the element list, for the calendar date
      `today`, the parsed dataset (its column names and rows) and whether the
      header and footer images exist. Checks fail in the script's order. */
  method Run(today: int, columns: seq<string>, rows: seq<Row>, headerExists: bool, footerExists: bool)
    returns (r: Result<ReportContent, Failure>)
    ensures r == Failure(MissingTimeColumn) <==> TimeColumn !in columns
    ensures r == Failure(NoSensorColumns) <==>
      TimeColumn in columns && ActiveSensors(columns, RowsInWindow(today, rows)) == []
    ensures r == Failure(MissingHeader) <==>
      TimeColumn in columns && ActiveSensors(columns, RowsInWindow(today, rows)) != [] && !headerExists
    ensures r == Failure(MissingFooter) <==>
      TimeColumn in columns && ActiveSensors(columns, RowsInWindow(today, rows)) != [] && headerExists && !footerExists
    ensures r.Success? ==>
      var c := r.value;
      && c.window == WindowFor(today)
      && c.rows == RowsInWindow(today, rows)
      && c.sensors == ActiveSensors(columns, c.rows)
      && c.sensors != []
      && |c.table| == |c.sensors| + 1
      && c.table[0] == Heading(HeaderLabels)
      && (forall k :: 0 <= k < |c.sensors| ==> c.table[k + 1] == SensorLine(StatisticsOf(c.rows, c.sensors[k])))
      && |c.elements| == |c.sensors| + 4
      && c.elements[0].CombinedChart? && c.elements[0].path == CombinedChartPath
      && |c.elements[0].series| == |c.sensors|
      && (forall k :: 0 <= k < |c.sensors| ==> c.elements[0].series[k] == Series(c.sensors[k], ColourFor(k)))
      && (forall k :: 0 <= k < |c.sensors| ==> c.elements[k + 1] == SensorChartOf(c.rows, c.sensors[k], k))
      && c.elements[|c.sensors| + 1] == StatisticsTable(c.table)
      && c.elements[|c.sensors| + 2] == Spacer(SpacerHeight)
      && c.elements[|c.sensors| + 3] == Spacer(SpacerHeight)
  {
    if TimeColumn !in columns {
      return Failure(MissingTimeColumn);
    }
    var window := WindowFor(today);
    var filtered := FilterWindow(rows, window);
    var sensors := ActiveSensors(columns, filtered);
    if sensors == [] {
      return Failure(NoSensorColumns);
    }
    if !headerExists {
      return Failure(MissingHeader);
    }
    if !footerExists {
      return Failure(MissingFooter);
    }
    var elements, table := AssembleReport(filtered, sensors);
    return Success(ReportContent(window, filtered, sensors, elements, table));
  }
}
