/**
 * The history summary page (pages/1_History_Summary.py lines 21-100): load
 * the history table, drop rows whose time does not parse, check the columns,
 * keep the rows of a range of whole days and total energy and cost over them.
 *
 * A table is a list of column names and a list of rows; a row maps a column
 * name to a cell. Times are integer seconds and a day is 86400 seconds.
 */
module HistorySummary {
  import opened Wrappers
  import Dashboard
  import Energy

  /** A cell as pandas holds it: a number, text it could not read as a number,
      a timestamp, or a missing value (NaN / NaT). */
  datatype Cell = Num(x: real) | Text(s: string) | Stamp(t: int) | Null

  type Row = map<string, Cell>

  const TimeColumn: string := "Time"
  const EnergyColumn: string := "Energy (kWh)"
  const CostColumn: string := "Cost (BDT)"

  /** `expected_cols` (line 34). */
  const ExpectedColumns: seq<string> :=
    [TimeColumn, "Current (mA)", "Voltage (V)", "Power (W)", EnergyColumn, CostColumn, "Duration (min)"]

  const DaySeconds: int := 86400

  /** A row's cell in a column (missing when the row has no such key). */
  function CellOf(row: Row, col: string): Cell {
    if col in row then row[col] else Null
  }

  /** `a` is `b` with some elements left out, the rest in their order. */
  predicate IsSubsequence<T(==)>(a: seq<T>, b: seq<T>)
    decreases |b|
  {
    if a == [] then true
    else if b == [] then false
    else (a[0] == b[0] && IsSubsequence(a[1..], b[1..])) || IsSubsequence(a, b[1..])
  }

  // ---------------------------------------------------------------- filtering

  /** The rows satisfying `p`, in their order (a boolean-mask selection). */
  function Keep(rows: seq<Row>, p: Row -> bool): (out: seq<Row>)
    ensures |out| <= |rows|
    ensures forall r :: r in out <==> r in rows && p(r)
    decreases |rows|
  {
    if rows == [] then []
    else (if p(rows[0]) then [rows[0]] else []) + Keep(rows[1..], p)
  }

  /** A selection keeps every row meeting the condition as many times as it
      occurs in the input, and no other row. */
  lemma {:induction false} KeepCounts(rows: seq<Row>, p: Row -> bool)
    ensures forall r :: multiset(Keep(rows, p))[r] == if p(r) then multiset(rows)[r] else 0
    decreases |rows|
  {
    if rows != [] {
      KeepCounts(rows[1..], p);
      assert rows == [rows[0]] + rows[1..];
    }
  }

  /** A selection is an order-preserving subsequence of its input. */
  lemma {:induction false} KeepIsSubsequence(rows: seq<Row>, p: Row -> bool)
    ensures IsSubsequence(Keep(rows, p), rows)
    decreases |rows|
  {
    if rows != [] {
      KeepIsSubsequence(rows[1..], p);
      var rest := Keep(rows[1..], p);
      if p(rows[0]) {
        assert Keep(rows, p) == [rows[0]] + rest;
        assert ([rows[0]] + rest)[1..] == rest;
      } else {
        assert Keep(rows, p) == rest;
        if rest != [] {
          SubsequenceOfTail(rest, rows);
        }
      }
    }
  }

  /** A subsequence of the tail is a subsequence of the whole. */
  lemma SubsequenceOfTail<T>(a: seq<T>, b: seq<T>)
    requires b != [] && IsSubsequence(a, b[1..])
    ensures IsSubsequence(a, b)
  {
  }

  /** Selecting twice with the same condition selects nothing more. */
  lemma {:induction false} KeepIdempotent(rows: seq<Row>, p: Row -> bool)
    ensures Keep(Keep(rows, p), p) == Keep(rows, p)
    decreases |rows|
  {
    if rows != [] {
      KeepIdempotent(rows[1..], p);
      var rest := Keep(rows[1..], p);
      if p(rows[0]) {
        var out := [rows[0]] + rest;
        assert Keep(rows, p) == out;
        assert out[0] == rows[0] && out[1..] == rest;
        assert Keep(out, p) == [rows[0]] + Keep(rest, p);
      } else {
        assert Keep(rows, p) == rest;
      }
    }
  }

  // ------------------------------------------------- time parsing and dropna

  /** `pd.to_datetime(df['Time'], errors='coerce')` on one row: the Time cell
      becomes a timestamp, or NaT when `parse` cannot read it. */
  function CoerceRow(row: Row, parse: Cell -> Option<int>): Row {
    if TimeColumn in row then
      row[TimeColumn := match parse(row[TimeColumn]) case Some(t) => Stamp(t) case None => Null]
    else row
  }

  function CoerceRows(rows: seq<Row>, parse: Cell -> Option<int>): (out: seq<Row>)
    ensures |out| == |rows|
    ensures forall i :: 0 <= i < |rows| ==> out[i] == CoerceRow(rows[i], parse)
    decreases |rows|
  {
    if rows == [] then [] else [CoerceRow(rows[0], parse)] + CoerceRows(rows[1..], parse)
  }

  /** The Time cell is not NaT: the rows `dropna(subset=['Time'])` keeps. */
  predicate HasTime(row: Row) {
    CellOf(row, TimeColumn) != Null
  }

  /** Lines 30-31 on the rows: every row whose time parses is kept, with its
      time, in its original order, and every other row is dropped. */
  lemma ParsedRowsKept(rows: seq<Row>, parse: Cell -> Option<int>)
    requires forall i :: 0 <= i < |rows| ==> TimeColumn in rows[i]
    ensures var out := Keep(CoerceRows(rows, parse), HasTime);
      IsSubsequence(out, CoerceRows(rows, parse)) &&
      |out| == |rows| - |ParseFailures(rows, parse)| &&
      forall r :: r in out <==>
        exists i :: 0 <= i < |rows| && parse(rows[i][TimeColumn]).Some? && r == CoerceRow(rows[i], parse)
  {
    var coerced := CoerceRows(rows, parse);
    KeepIsSubsequence(coerced, HasTime);
    DroppedCount(rows, parse);
    forall i | 0 <= i < |rows|
      ensures HasTime(coerced[i]) <==> parse(rows[i][TimeColumn]).Some?
    {
    }
  }

  /** The rows whose time does not parse. */
  function ParseFailures(rows: seq<Row>, parse: Cell -> Option<int>): seq<Row>
    decreases |rows|
  {
    if rows == [] then []
    else (if parse(CellOf(rows[0], TimeColumn)).None? then [rows[0]] else []) + ParseFailures(rows[1..], parse)
  }

  /** Exactly one row is dropped per time that does not parse. */
  lemma {:induction false} DroppedCount(rows: seq<Row>, parse: Cell -> Option<int>)
    requires forall i :: 0 <= i < |rows| ==> TimeColumn in rows[i]
    ensures |Keep(CoerceRows(rows, parse), HasTime)| == |rows| - |ParseFailures(rows, parse)|
    decreases |rows|
  {
    if rows != [] {
      DroppedCount(rows[1..], parse);
      assert CoerceRows(rows, parse)[1..] == CoerceRows(rows[1..], parse);
      assert HasTime(CoerceRow(rows[0], parse)) <==> parse(CellOf(rows[0], TimeColumn)).Some?;
    }
  }

  // ------------------------------------------------------- the column check

  /** `missing_cols` (line 35): the expected columns the table lacks. */
  function MissingColumns(expected: seq<string>, columns: seq<string>): (missing: seq<string>)
    ensures forall c :: c in missing <==> c in expected && c !in columns
    ensures missing == [] <==> forall c :: c in expected ==> c in columns
    decreases |expected|
  {
    if expected == [] then []
    else (if expected[0] !in columns then [expected[0]] else []) + MissingColumns(expected[1..], columns)
  }

  /** The missing columns are listed in the order of `expected`. */
  lemma {:induction false} MissingInExpectedOrder(expected: seq<string>, columns: seq<string>)
    ensures IsSubsequence(MissingColumns(expected, columns), expected)
    decreases |expected|
  {
    if expected != [] {
      MissingInExpectedOrder(expected[1..], columns);
      var rest := MissingColumns(expected[1..], columns);
      if expected[0] !in columns {
        assert ([expected[0]] + rest)[1..] == rest;
      } else {
        assert MissingColumns(expected, columns) == rest;
        if rest != [] {
          SubsequenceOfTail(rest, expected);
        }
      }
    }
  }

  /** A table written by the dashboard has every expected column. */
  lemma DashboardTableComplete()
    ensures MissingColumns(ExpectedColumns, Dashboard.RecordColumns) == []
  {
    assert forall c :: c in ExpectedColumns ==> c in Dashboard.RecordColumns;
  }

  // -------------------------------------------------------- the date filter

  /** Lines 56-58: `start_date` 00:00:00 and `end_date` 23:59:59 (days are
      numbered from the epoch). */
  function RangeStart(startDay: int): int { startDay * DaySeconds }
  function RangeEnd(endDay: int): int { endDay * DaySeconds + DaySeconds - 1 }

  predicate InRange(row: Row, startDay: int, endDay: int) {
    match CellOf(row, TimeColumn)
    case Stamp(t) => RangeStart(startDay) <= t && t <= RangeEnd(endDay)
    case _ => false
  }

  /** `filtered_df` (line 58). */
  function DateFilter(rows: seq<Row>, startDay: int, endDay: int): seq<Row> {
    Keep(rows, (r: Row) => InRange(r, startDay, endDay))
  }

  /** The range is a whole number of days, both ends included: a time is kept
      exactly when its day lies between the two selected days. */
  lemma WholeDays(t: int, startDay: int, endDay: int)
    ensures RangeStart(startDay) <= t <= RangeEnd(endDay) <==> startDay <= t / DaySeconds <= endDay
  {
    var d := t / DaySeconds;
    assert d * DaySeconds <= t < d * DaySeconds + DaySeconds;
    if startDay <= d {
      assert startDay * DaySeconds <= d * DaySeconds;
    } else {
      assert (startDay - 1) * DaySeconds >= d * DaySeconds;
    }
    if d <= endDay {
      assert d * DaySeconds <= endDay * DaySeconds;
    } else {
      assert (endDay + 1) * DaySeconds <= d * DaySeconds;
    }
  }

  /** The filter keeps exactly the rows stamped within the range, in order,
      and applying it again changes nothing. */
  lemma DateFilterProperties(rows: seq<Row>, startDay: int, endDay: int)
    ensures var out := DateFilter(rows, startDay, endDay);
      IsSubsequence(out, rows) &&
      DateFilter(out, startDay, endDay) == out &&
      (forall r :: r in out <==> (r in rows && CellOf(r, TimeColumn).Stamp? &&
        startDay <= CellOf(r, TimeColumn).t / DaySeconds <= endDay)) &&
      forall r :: multiset(out)[r] ==
        if CellOf(r, TimeColumn).Stamp? && startDay <= CellOf(r, TimeColumn).t / DaySeconds <= endDay
        then multiset(rows)[r] else 0
  {
    var p := (r: Row) => InRange(r, startDay, endDay);
    KeepIsSubsequence(rows, p);
    KeepIdempotent(rows, p);
    KeepCounts(rows, p);
    forall r | CellOf(r, TimeColumn).Stamp?
      ensures InRange(r, startDay, endDay) <==> startDay <= CellOf(r, TimeColumn).t / DaySeconds <= endDay
    {
      WholeDays(CellOf(r, TimeColumn).t, startDay, endDay);
    }
  }

  // ---------------------------------------------------------------- totals

  /** `pd.to_numeric(col, errors='coerce').dropna()`: the numeric cells of a
      column, in row order. */
  function Numbers(rows: seq<Row>, col: string): seq<real>
    decreases |rows|
  {
    if rows == [] then []
    else (match CellOf(rows[0], col) case Num(x) => [x] case _ => []) + Numbers(rows[1..], col)
  }

  /** Lines 99-100: last minus first when there are at least two values. */
  function Total(series: seq<real>): real {
    if |series| >= 2 then series[|series| - 1] - series[0] else 0.0
  }

  /** The sum of the steps between consecutive values. */
  function SumOfSteps(series: seq<real>): real
    decreases |series|
  {
    if |series| < 2 then 0.0 else (series[1] - series[0]) + SumOfSteps(series[1..])
  }

  /** Last minus first is the sum of all consecutive steps in between. */
  lemma {:induction false} TotalIsSumOfSteps(series: seq<real>)
    ensures Total(series) == SumOfSteps(series)
    decreases |series|
  {
    if |series| > 2 {
      TotalIsSumOfSteps(series[1..]);
      assert series[1..][|series| - 2] == series[|series| - 1];
    }
  }

  predicate NonDecreasing(series: seq<real>) {
    forall i :: 0 < i < |series| ==> series[i - 1] <= series[i]
  }

  /** A total over a series that never decreases is never negative. */
  lemma {:induction false} TotalOfNonDecreasing(series: seq<real>)
    requires NonDecreasing(series)
    ensures Total(series) >= 0.0
    decreases |series|
  {
    TotalIsSumOfSteps(series);
    StepsNonNegative(series);
  }

  lemma {:induction false} StepsNonNegative(series: seq<real>)
    requires NonDecreasing(series)
    ensures SumOfSteps(series) >= 0.0
    decreases |series|
  {
    if |series| >= 2 {
      assert series[0] <= series[1];
      var rest := series[1..];
      assert forall i :: 0 < i < |rest| ==> rest[i - 1] == series[i] && rest[i] == series[i + 1];
      StepsNonNegative(rest);
    }
  }

  /** Rows whose cost is the energy times the tariff, as the dashboard writes
      after a successful reading. */
  predicate Priced(row: Row) {
    CellOf(row, EnergyColumn).Num? &&
    CellOf(row, CostColumn) == Num(CellOf(row, EnergyColumn).x * Energy.UnitCostBdt)
  }

  /** Over priced rows the cost column is the energy column times the tariff,
      and so is its total. */
  lemma {:induction false} PricedTotals(rows: seq<Row>)
    requires forall i :: 0 <= i < |rows| ==> Priced(rows[i])
    ensures |Numbers(rows, CostColumn)| == |Numbers(rows, EnergyColumn)| == |rows|
    ensures forall i :: 0 <= i < |rows| ==>
      Numbers(rows, CostColumn)[i] == Numbers(rows, EnergyColumn)[i] * Energy.UnitCostBdt
    ensures Total(Numbers(rows, CostColumn)) == Total(Numbers(rows, EnergyColumn)) * Energy.UnitCostBdt
    decreases |rows|
  {
    if rows != [] {
      PricedTotals(rows[1..]);
    }
  }

  /** A failed status call logs a row with energy 0 (and cost 0), so the
      last-minus-first total over rows ending on it is negative as soon as
      the energy logged before it was positive. */
  lemma FailedPollGivesNegativeTotal(m: Dashboard.Meter, now: int)
    requires m.kwh > 0.0
    ensures Dashboard.Poll(m, Dashboard.FetchFailed, now).1.kwh == 0.0
    ensures Total([m.kwh, Dashboard.Poll(m, Dashboard.FetchFailed, now).1.kwh]) < 0.0
  {
  }

  // ------------------------------------------------------------- the page

  /** Where the page stops, or the summary it shows. */
  datatype Outcome =
    | NoFile                              // line 156
    | EmptyFile                           // lines 25-27
    | TimeColumnMissing                   // `df['Time']` raises at line 30
    | ColumnsMissing(cols: seq<string>)   // lines 36-38
    | NoDataInRange                       // line 153
    | Summary(rows: seq<Row>, totalEnergy: real, totalCost: real)

  /** The table read from `energy_history.csv`. */
  class Frame {
    var columns: seq<string>
    var rows: seq<Row>

    constructor (columns: seq<string>, rows: seq<Row>)
      ensures this.columns == columns && this.rows == rows
    {
      this.columns := columns;
      this.rows := rows;
    }

    /** Line 30: replace the Time column by parsed timestamps. */
    method CoerceTime(parse: Cell -> Option<int>)
      modifies this`rows
      ensures rows == CoerceRows(old(rows), parse)
    {
      rows := CoerceRows(rows, parse);
    }

    /** Line 31: `dropna(subset=['Time'], inplace=True)`. */
    method DropMissingTime()
      modifies this`rows
      ensures rows == Keep(old(rows), HasTime)
    {
      rows := Keep(rows, HasTime);
    }
  }

  /** The page from loading the file to the totals (lines 21-100), for the
      day range chosen in the date picker. */
  method ShowSummary(file: Frame?, parse: Cell -> Option<int>, startDay: int, endDay: int)
    returns (o: Outcome)
    modifies file
    ensures file == null ==> o == NoFile
    ensures file != null ==> file.columns == old(file.columns)
    ensures file != null && (old(file.rows) == [] || TimeColumn !in old(file.columns)) ==>
      file.rows == old(file.rows)
    ensures file != null && old(file.rows) == [] ==> o == EmptyFile
    ensures file != null && old(file.rows) != [] && TimeColumn !in old(file.columns) ==> o == TimeColumnMissing
    ensures file != null && old(file.rows) != [] && TimeColumn in old(file.columns) ==>
      file.rows == Keep(CoerceRows(old(file.rows), parse), HasTime) &&
      var missing := MissingColumns(ExpectedColumns, old(file.columns));
      var filtered := DateFilter(Keep(CoerceRows(old(file.rows), parse), HasTime), startDay, endDay);
      o == if missing != [] then ColumnsMissing(missing)
           else if filtered == [] then NoDataInRange
           else Summary(filtered, Total(Numbers(filtered, EnergyColumn)), Total(Numbers(filtered, CostColumn)))
    ensures o.ColumnsMissing? ==> o.cols != [] && TimeColumn !in o.cols
  {
    if file == null {
      return NoFile;
    }
    if |file.rows| == 0 {
      return EmptyFile;
    }
    if TimeColumn !in file.columns {
      return TimeColumnMissing;
    }
    file.CoerceTime(parse);
    file.DropMissingTime();
    var missing := MissingColumns(ExpectedColumns, file.columns);
    if missing != [] {
      return ColumnsMissing(missing);
    }
    var filtered := DateFilter(file.rows, startDay, endDay);
    if filtered == [] {
      return NoDataInRange;
    }
    var energy := Numbers(filtered, EnergyColumn);
    var cost := Numbers(filtered, CostColumn);
    o := Summary(filtered, Total(energy), Total(cost));
  }
}
