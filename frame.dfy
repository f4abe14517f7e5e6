/** The parsed dataset, the window filter and the choice of active sensor
    columns. */
module Frame {
  import opened Wrappers
  import opened ReportWindow
  import opened Stats

  /** Name of the timestamp column. */
  const TimeColumn: string := "Date&Time"

  /** One parsed CSV row: its timestamp (None when the text did not parse and
      was coerced to NaT) and the numeric cells of the other columns, keyed by
      column name (None, or no entry, for a missing cell). */
  datatype Row = Row(time: Option<int>, cells: map<string, Option<real>>)

  /** The cell of `row` in column `col`. */
  function Cell(row: Row, col: string): Option<real> {
    if col in row.cells then row.cells[col] else None
  }

  /** The row mask of the filter: the timestamp parsed and lies in [start, end).
      A comparison with NaT is false, so rows without a timestamp fail it. */
  predicate InWindow(row: Row, w: Window) {
    row.time.Some? && Contains(w, row.time.value)
  }

  /** `a` is `b` with some elements dropped and the rest kept in order. */
  ghost predicate SubsequenceOf<T>(a: seq<T>, b: seq<T>)
    decreases |b|
  {
    if a == [] then true
    else if b == [] then false
    else (a[0] == b[0] && SubsequenceOf(a[1..], b[1..])) || SubsequenceOf(a, b[1..])
  }

  lemma {:induction false} SubsequenceShorter<T>(a: seq<T>, b: seq<T>)
    requires SubsequenceOf(a, b)
    ensures |a| <= |b|
  {
    if a != [] {
      if a[0] == b[0] && SubsequenceOf(a[1..], b[1..]) {
        SubsequenceShorter(a[1..], b[1..]);
      } else {
        SubsequenceShorter(a, b[1..]);
      }
    }
  }

  /** The rows kept by `df[(t >= start) & (t < end)]`, in input order. */
  function FilterWindow(rows: seq<Row>, w: Window): (kept: seq<Row>)
    ensures forall i :: 0 <= i < |kept| ==> InWindow(kept[i], w)
    ensures SubsequenceOf(kept, rows)
  {
    if rows == [] then []
    else if InWindow(rows[0], w) then [rows[0]] + FilterWindow(rows[1..], w)
    else
      var rest := FilterWindow(rows[1..], w);
      rest
  }

  /** A row is kept exactly when it is in the input and inside the window. */
  lemma {:induction false} FilterWindowKeeps(rows: seq<Row>, w: Window, row: Row)
    ensures row in FilterWindow(rows, w) <==> row in rows && InWindow(row, w)
  {
    if rows != [] {
      FilterWindowKeeps(rows[1..], w, row);
      assert rows == [rows[0]] + rows[1..];
    }
  }

  /** Filtering distributes over concatenation: the relative order of the
      rows is that of the input. */
  lemma {:induction false} FilterWindowAppend(a: seq<Row>, b: seq<Row>, w: Window)
    ensures FilterWindow(a + b, w) == FilterWindow(a, w) + FilterWindow(b, w)
  {
    if a == [] {
      assert a + b == b;
    } else {
      assert (a + b)[1..] == a[1..] + b;
      FilterWindowAppend(a[1..], b, w);
    }
  }

  /** Each row occurs in the filtered data as often as in the input when it
      is in the window, and not at all otherwise. */
  lemma {:induction false} FilterWindowCount(rows: seq<Row>, w: Window, row: Row)
    ensures multiset(FilterWindow(rows, w))[row] == if InWindow(row, w) then multiset(rows)[row] else 0
  {
    if rows != [] {
      FilterWindowCount(rows[1..], w, row);
      assert rows == [rows[0]] + rows[1..];
    }
  }

  /** The present readings of column `col` over the rows, in row order:
      the values pandas' skip-missing aggregations see. */
  function Readings(rows: seq<Row>, col: string): (xs: seq<real>)
    ensures |xs| <= |rows|
  {
    if rows == [] then []
    else match Cell(rows[0], col)
      case Some(x) => [x] + Readings(rows[1..], col)
      case None => Readings(rows[1..], col)
  }

  /** A value is a reading of the column exactly when some row holds it in
      that column. */
  lemma {:induction false} ReadingsMembers(rows: seq<Row>, col: string, x: real)
    ensures x in Readings(rows, col) <==> exists i :: 0 <= i < |rows| && Cell(rows[i], col) == Some(x)
  {
    if rows != [] {
      ReadingsMembers(rows[1..], col, x);
      if exists i :: 0 <= i < |rows| && Cell(rows[i], col) == Some(x) {
        var i :| 0 <= i < |rows| && Cell(rows[i], col) == Some(x);
        if i > 0 {
          assert rows[1..][i - 1] == rows[i];
        }
      }
      if x in Readings(rows[1..], col) {
        var i :| 0 <= i < |rows[1..]| && Cell(rows[1..][i], col) == Some(x);
        assert rows[i + 1] == rows[1..][i];
      }
    }
  }

  /** `df_filtered[col].sum()`: missing cells are skipped, so they add
      nothing; no rows, or only missing cells, give 0. A non-zero sum needs
      at least one reading. */
  function ColumnSum(rows: seq<Row>, col: string): (total: real)
    ensures total != 0.0 ==> Readings(rows, col) != []
  {
    if rows == [] then 0.0
    else
      (match Cell(rows[0], col) case Some(x) => x case None => 0.0) + ColumnSum(rows[1..], col)
  }

  /** The column sum is the sum of the column's readings. */
  lemma {:induction false} ColumnSumOfReadings(rows: seq<Row>, col: string)
    ensures ColumnSum(rows, col) == Sum(Readings(rows, col))
  {
    if rows != [] {
      ColumnSumOfReadings(rows[1..], col);
    }
  }

  /** `[col for col in columns if col != time_column]`. */
  function NonTimeColumns(columns: seq<string>): (cs: seq<string>)
    ensures forall c :: c in cs <==> c in columns && c != TimeColumn
    ensures SubsequenceOf(cs, columns)
  {
    if columns == [] then []
    else if columns[0] != TimeColumn then [columns[0]] + NonTimeColumns(columns[1..])
    else
      var rest := NonTimeColumns(columns[1..]);
      rest
  }

  /** `[col for col in columns if df_filtered[col].sum() != 0]`. */
  function NonZeroColumns(columns: seq<string>, rows: seq<Row>): (cs: seq<string>)
    ensures forall c :: c in cs <==> c in columns && ColumnSum(rows, c) != 0.0
    ensures forall k :: 0 <= k < |cs| ==> ColumnSum(rows, cs[k]) != 0.0
    ensures SubsequenceOf(cs, columns)
  {
    if columns == [] then []
    else if ColumnSum(rows, columns[0]) != 0.0 then [columns[0]] + NonZeroColumns(columns[1..], rows)
    else
      var rest := NonZeroColumns(columns[1..], rows);
      rest
  }

  /** The sensor columns the report covers: exactly the non-time columns
      whose sum over the rows is not zero, in the dataset's column order. */
  function ActiveSensors(columns: seq<string>, rows: seq<Row>): (active: seq<string>)
    ensures forall c :: c in active <==> c in columns && c != TimeColumn && ColumnSum(rows, c) != 0.0
    ensures SubsequenceOf(active, columns)
    ensures TimeColumn !in active
    ensures forall k :: 0 <= k < |active| ==> Readings(rows, active[k]) != []
  {
    var named := NonTimeColumns(columns);
    SubsequenceTransitive(NonZeroColumns(named, rows), named, columns);
    NonZeroColumns(named, rows)
  }

  lemma {:induction false} SubsequenceTransitive<T>(a: seq<T>, b: seq<T>, c: seq<T>)
    requires SubsequenceOf(a, b) && SubsequenceOf(b, c)
    ensures SubsequenceOf(a, c)
    decreases |c|
  {
    if a != [] {
      assert b != [] && c != [];
      if b[0] == c[0] && SubsequenceOf(b[1..], c[1..]) {
        if a[0] == b[0] && SubsequenceOf(a[1..], b[1..]) {
          SubsequenceTransitive(a[1..], b[1..], c[1..]);
        } else {
          SubsequenceTransitive(a, b[1..], c[1..]);
        }
      } else {
        SubsequenceTransitive(a, b, c[1..]);
      }
    }
  }

  /** A column whose sum is not zero has a present, non-zero cell in some
      row. */
  lemma {:induction false} ActiveColumnHasValue(rows: seq<Row>, col: string)
    requires ColumnSum(rows, col) != 0.0
    ensures exists i :: 0 <= i < |rows| && Cell(rows[i], col).Some? && Cell(rows[i], col).value != 0.0
  {
    var i := NonZeroCell(rows, col);
  }

  /** The index of a row whose cell in `col` is present and not zero. */
  lemma {:induction false} NonZeroCell(rows: seq<Row>, col: string) returns (i: int)
    requires ColumnSum(rows, col) != 0.0
    ensures 0 <= i < |rows| && Cell(rows[i], col).Some? && Cell(rows[i], col).value != 0.0
  {
    if Cell(rows[0], col).Some? && Cell(rows[0], col).value != 0.0 {
      i := 0;
    } else {
      var j := NonZeroCell(rows[1..], col);
      i := j + 1;
    }
  }

  /** With no rows in the window, no sensor is active. */
  lemma NoRowsNoSensors(columns: seq<string>)
    ensures ActiveSensors(columns, []) == []
  {
    NoRowsNoNonZeroColumns(NonTimeColumns(columns));
  }

  lemma {:induction false} NoRowsNoNonZeroColumns(columns: seq<string>)
    ensures NonZeroColumns(columns, []) == []
  {
    if columns != [] {
      NoRowsNoNonZeroColumns(columns[1..]);
    }
  }

  /** Column sums add up over a split of the rows. */
  lemma {:induction false} ColumnSumAppend(a: seq<Row>, b: seq<Row>, col: string)
    ensures ColumnSum(a + b, col) == ColumnSum(a, col) + ColumnSum(b, col)
  {
    if a == [] {
      assert a + b == b;
    } else {
      assert (a + b)[1..] == a[1..] + b;
      ColumnSumAppend(a[1..], b, col);
    }
  }

  /** A column sum does not depend on the order of the rows. */
  lemma {:induction false} ColumnSumPermutation(a: seq<Row>, b: seq<Row>, col: string)
    requires multiset(a) == multiset(b)
    ensures ColumnSum(a, col) == ColumnSum(b, col)
  {
    if a == [] {
      assert |b| == |multiset(b)| == 0;
    } else {
      assert a[0] in multiset(b);
      var j :| 0 <= j < |b| && b[j] == a[0];
      var rest := RemoveAt(b, j);
      MultisetTail(a);
      ColumnSumPermutation(a[1..], rest, col);
      ColumnSumRemoveAt(b, j, col);
    }
  }

  lemma MultisetTail<T>(s: seq<T>)
    requires s != []
    ensures multiset(s[1..]) == multiset(s) - multiset{s[0]}
  {
    assert s == [s[0]] + s[1..];
  }

  /** `s` without its element at index `j`. */
  function RemoveAt<T>(s: seq<T>, j: int): (r: seq<T>)
    requires 0 <= j < |s|
    ensures multiset(s) == multiset{s[j]} + multiset(r)
    ensures multiset(r) == multiset(s) - multiset{s[j]}
  {
    assert s == s[..j] + [s[j]] + s[j + 1..];
    s[..j] + s[j + 1..]
  }

  lemma ColumnSumRemoveAt(b: seq<Row>, j: int, col: string)
    requires 0 <= j < |b|
    ensures ColumnSum(b, col) == ColumnSum([b[j]], col) + ColumnSum(RemoveAt(b, j), col)
  {
    assert b == b[..j] + ([b[j]] + b[j + 1..]);
    ColumnSumAppend(b[..j], [b[j]] + b[j + 1..], col);
    ColumnSumAppend([b[j]], b[j + 1..], col);
    ColumnSumAppend(b[..j], b[j + 1..], col);
  }

  /** NonZeroColumns only looks at the column sums. */
  lemma {:induction false} NonZeroColumnsBySums(columns: seq<string>, r1: seq<Row>, r2: seq<Row>)
    requires forall i :: 0 <= i < |columns| ==> ColumnSum(r1, columns[i]) == ColumnSum(r2, columns[i])
    ensures NonZeroColumns(columns, r1) == NonZeroColumns(columns, r2)
  {
    if columns != [] {
      NonZeroColumnsBySums(columns[1..], r1, r2);
    }
  }

  /** Reordering the input rows does not change which sensors are active,
      nor their order. */
  lemma ActiveSensorsIgnoreRowOrder(columns: seq<string>, a: seq<Row>, b: seq<Row>, w: Window)
    requires multiset(a) == multiset(b)
    ensures ActiveSensors(columns, FilterWindow(a, w)) == ActiveSensors(columns, FilterWindow(b, w))
  {
    var fa, fb := FilterWindow(a, w), FilterWindow(b, w);
    forall row | true ensures multiset(fa)[row] == multiset(fb)[row] {
      FilterWindowCount(a, w, row);
      FilterWindowCount(b, w, row);
    }
    assert multiset(fa) == multiset(fb);
    var cs := NonTimeColumns(columns);
    forall i | 0 <= i < |cs| ensures ColumnSum(fa, cs[i]) == ColumnSum(fb, cs[i]) {
      ColumnSumPermutation(fa, fb, cs[i]);
    }
    NonZeroColumnsBySums(cs, fa, fb);
  }
}
