# AX303 deviation report, modelled in Dafny

The script `report/AX303_DR.py` builds a daily PDF report for the sensors
of machine AX303. It reads a CSV dataset whose "Date&Time" column holds the
timestamps and whose other columns hold sensor readings. From "today" it
builds a window from 06:00 on the previous day to 06:00 today and keeps the
rows inside it. A sensor is active when its column sums to something other
than zero over those rows. For each active sensor, in column order, it
draws a chart, flags the readings further than 15 from the mean, and adds a
line to a statistics table: min, max, average, mean, median and the number
of deviations.

This project models the analytical part of that script:

- `window.dfy` (module `ReportWindow`): the window, as a half-open
  interval of seconds.
- `frame.dfy` (module `Frame`): parsed rows, the window filter, the present
  readings of a column, column sums and the choice of active sensors.
- `stats.dfy` (module `Stats`): sum, mean, min, max and median over exact
  reals. The median reads the middle of an insertion-sorted copy.
- `deviation.dfy` (module `Deviation`): the deviation mask and its count.
- `report.dfy` (module `Report`): the palette, the per-sensor statistics,
  the loops that build the charts and the table, the order of the document's
  elements, and `Run`, the path from the window to the element list with
  the script's failures in the script's order.
- `wrappers.dfy` (module `Wrappers`): `Option` and `Result`.

pandas skips missing cells in `sum`, `mean`, `min`, `max` and `median`, and
a comparison with a missing value is false. The model follows this. A cell
is `Option<real>`, and `Readings` keeps only the present values of a column.
A timestamp that does not parse is `None` and fails the window test.

The script is a flat sequence of statements. The comprehensions and masks
(lines 45, 48, 51, 117-118) are functions. The two `for` loops over the
sensors (lines 83-84 and 111-152) are methods with loop invariants. Each
method's postcondition ties its output to the specification functions.

Where the specification of the system and the code disagree, the
model follows the code:

- The specification expects a sensor with no present values in the window
  to stay active and to fail with an "insufficient data" error. In the code
  this cannot happen. A sensor is active only when its sum is not zero, and
  a non-zero sum needs at least one present, non-zero reading
  (`Frame.ActiveColumnHasValue`, `Frame.ActiveSensors`). The model has no
  such error.
- The specification says that a missing header or footer image aborts the
  run before any computation. The code checks the images after choosing
  the sensors (lines 53-54, then 65-69). So with no active sensors, the
  "no sensor columns" error wins. `Report.Run` keeps the code's order.
- The specification's worked example gives a sensor the readings 0, 0, 0
  and 100, a mean of 25, and a deviation count of 1, with only the 100
  flagged. By the code's own mask (lines 117-118) the band runs from 10 to
  40, so the three zeros lie below it too and the count is 4.
  `Report.ZerosAndHundred` proves the count of 4 from the model.

## Model

| member | source | states |
|---|---|---|
| ReportWindow.WindowFor | report/AX303_DR.py:29-30 | the window lasts exactly 24 hours; it starts at 06:00 on the day before `today` and ends at 06:00 on `today` |
| ReportWindow.WindowsTile | report/AX303_DR.py:29-30 | one day's window ends where the next day's begins; a timestamp is in the window of at most one of two consecutive days; it is in `today`'s window exactly when shifting it back 6 hours lands it on the previous day |
| Frame.FilterWindow | report/AX303_DR.py:45 | every kept row has a timestamp `t` with `start <= t < end`; the kept rows are a subsequence of the input, in input order |
| Frame.FilterWindowKeeps | report/AX303_DR.py:42-45 | a row is kept exactly when it is in the input and its timestamp parsed and lies in `[start, end)`; a row whose timestamp did not parse is never kept |
| Frame.FilterWindowAppend | report/AX303_DR.py:45 | filtering a concatenation gives the concatenation of the filtered parts, so the filter keeps the input order |
| Frame.FilterWindowCount | report/AX303_DR.py:45 | each row in the window is kept as many times as it occurs in the input; any other row is not kept at all |
| Frame.ReadingsMembers | report/AX303_DR.py:145-149 | a value is among a column's readings exactly when some row holds it, present, in that column |
| Frame.ColumnSum | report/AX303_DR.py:51 | a column sum that is not zero comes from at least one present reading |
| Frame.ColumnSumOfReadings | report/AX303_DR.py:51 | the column sum, with missing cells skipped, is the sum of the column's readings |
| Frame.NonTimeColumns | report/AX303_DR.py:48 | keeps exactly the columns other than "Date&Time", in column order |
| Frame.NonZeroColumns | report/AX303_DR.py:51 | keeps exactly the columns whose sum over the rows is not zero, in column order |
| Frame.ActiveSensors | report/AX303_DR.py:48-51 | a column is active exactly when it is in the dataset, is not "Date&Time" and sums to non-zero; the active list keeps column order, never holds the time column, and every active sensor has a reading |
| Frame.ActiveColumnHasValue | report/AX303_DR.py:51 | an active column has a row whose cell is present and not zero |
| Frame.NoRowsNoSensors | report/AX303_DR.py:51-54 | with no rows in the window, no sensor is active, so the run stops with the "no sensor columns" error |
| Frame.ColumnSumAppend | report/AX303_DR.py:51 | the column sum of concatenated rows is the sum of the two parts' sums |
| Frame.ColumnSumPermutation | report/AX303_DR.py:51 | reordering the rows does not change a column sum |
| Frame.ActiveSensorsIgnoreRowOrder | report/AX303_DR.py:45-51 | reordering the dataset's rows changes neither which sensors are active nor their order |
| Stats.MinIsLeast | report/AX303_DR.py:145 | the minimum is one of the values and no value is below it |
| Stats.MaxIsGreatest | report/AX303_DR.py:146 | the maximum is one of the values and no value is above it |
| Stats.Mean | report/AX303_DR.py:147-148 | the mean of the readings lies between their minimum and their maximum |
| Stats.AverageBounded | report/AX303_DR.py:147-148 | values between `lo` and `hi` have their sum over their count between `lo` and `hi` |
| Stats.SumBetween | report/AX303_DR.py:147-148 | values between `lo` and `hi` sum to between `n * lo` and `n * hi` |
| Stats.InsertAdds | report/AX303_DR.py:149 | inserting `x` adds exactly `x` to the multiset of values |
| Stats.InsertKeepsAscending | report/AX303_DR.py:149 | inserting into an ascending sequence gives an ascending sequence |
| Stats.InsertAbove | report/AX303_DR.py:149 | a lower bound of `x` and of every element stays a lower bound after insertion |
| Stats.SortAscendingSorts | report/AX303_DR.py:149 | the sorted copy is ascending and a permutation of the values |
| Stats.MiddleIndex | report/AX303_DR.py:149 | dropping both ends reaches the element at index n/2 for odd n, and the average of the elements at n/2-1 and n/2 for even n |
| Stats.MiddleBetween | report/AX303_DR.py:149 | the middle lies between two elements of the sequence |
| Stats.MedianOfSorted | report/AX303_DR.py:149 | the median is the middle value of the sorted values, or the average of the two middle values when their count is even |
| Stats.Median | report/AX303_DR.py:149 | the median of the readings lies between their minimum and their maximum |
| Deviation.IsDeviation | report/AX303_DR.py:117-118 | a cell is a deviation exactly when it is present and its distance from the mean exceeds the threshold; a missing cell never is |
| Deviation.DeviationBoundary | report/AX303_DR.py:116-118 | with threshold 15, readings at exactly mean + 15 or mean - 15 are not deviations, a missing reading never is, and any reading strictly further out is |
| Deviation.DeviationRows | report/AX303_DR.py:117-118 | the mask never selects more rows than there are |
| Deviation.DeviationRowsFlagged | report/AX303_DR.py:117-118 | every flagged row's reading is a deviation; the flagged rows keep the input order |
| Deviation.DeviationRowsKeep | report/AX303_DR.py:117-118 | a row is flagged exactly when it is among the rows and its reading is a deviation |
| Deviation.DeviationCountIsFarValues | report/AX303_DR.py:150 | the number of flagged rows equals the number of the column's readings further than the threshold from the mean |
| Report.ColourFor | report/AX303_DR.py:120 | the colour of sensor `i` is always one of the six palette colours |
| Report.ColourCycle | report/AX303_DR.py:59 | colours repeat every six sensors; six consecutive sensors get six different colours |
| Report.ReadingsBounds | report/AX303_DR.py:145-146 | some row holds the min and some row holds the max; every present reading lies between them |
| Report.ReadingBetween | report/AX303_DR.py:145-146 | one row's present reading lies between the column's min and max |
| Report.StatisticsOf | report/AX303_DR.py:145-152 | a sensor's table line names the sensor; "Average" equals "Mean"; min <= mean <= max and min <= median <= max; the deviation count is at most the number of rows |
| Report.StatisticsOfProperties | report/AX303_DR.py:145-150 | the line's min and max are readings that bound all readings; the deviation count is the number of readings further than 15 from the mean |
| Report.ZerosAndHundred | report/AX303_DR.py:113-118 | for the readings 0, 0, 0 and 100 the mean is 25, the median 0, and all four rows are deviations |
| Report.ChartPath | report/AX303_DR.py:138 | a sensor's chart file never overwrites the combined chart file |
| Report.ChartPathsDistinct | report/AX303_DR.py:138 | different sensors save their charts to different files |
| Report.SensorChartOf | report/AX303_DR.py:112-142 | a sensor's chart is saved apart from the combined chart, in a palette colour; its mean line lies between the smallest and the largest reading; it flags at most every row |
| Report.ChartMatchesStatistics | report/AX303_DR.py:113-118 | a sensor's chart draws its mean line at the table's mean; it flags as many rows as the table counts, and exactly the rows whose reading is a deviation |
| Report.CombinedSeries | report/AX303_DR.py:83-84 | the combined chart has one line per active sensor, in sensor order; line `k` is drawn in palette colour `k` |
| Report.SensorSections | report/AX303_DR.py:108-152 | after the loop there is one chart per sensor; chart `k` belongs to sensor `k`, in colour `k`; the table has `1 + |sensors|` rows: the heading, then sensor `k`'s statistics at row `k + 1` |
| Report.AssembleReport | report/AX303_DR.py:105-166 | the elements are, in order: the combined chart, one chart per sensor in sensor order, the statistics table and two 24-point spacers |
| Report.RowsInWindow | report/AX303_DR.py:29-45 | every row kept for the report lies in the window of `today` |
| Report.Run | report/AX303_DR.py:29-69 | the run fails when, and only when, one of the script's checks fails: the time column is missing, or no sensor is active in the window, or the header image is missing, or the footer image is missing; the first failing check decides the error; a successful run uses `today`'s window and the active sensors, with the table and element order of `AssembleReport` |

## Left out

- The HTTP fetch of the CSV (lines 33-35) and its parsing by pandas (line 38): network and library I/O. The model takes the parsed column names and rows as parameters.
- Parsing of the `%d/%m/%y,%H:%M:%S` timestamps (line 42): a library call. Its result is an `Option<int>` of seconds per row, `None` where parsing failed.
- The time-zone lookup and the wall clock (lines 20-26): "today" is an integer day parameter.
- All chart drawing with matplotlib: titles, axes, legends, tick formats, file writes. The charts are modelled by their file name, their colour, their mean line and the rows they flag.
- ReportLab's layout, the table style, the image sizes and the header and footer drawing (lines 72-79, 155-169). Whether the header and footer images exist is a boolean parameter of `Report.Run`.
- The e-mail body, its MIME packaging and the SMTP send (lines 177-217), and the deletion of the PNG files (lines 218-220): text templating, network and file-system side effects.
- The `:.2f` formatting of the table cells (line 152): the model keeps the numbers.
- Floating point: values are exact reals. Rounding can change the outcome right at a zero sum or at exactly mean ± 15.
- Non-numeric sensor columns and duplicate column names: every column other than "Date&Time" is taken to be numeric, and column names are distinct.
- The `print` of the detected sensor columns (line 56): console output.
