/**
 * Date windows over the loaded data (`dateFilter.ts`): finding the date column, keeping the rows
 * of one month or of a custom range, and listing the months and the span the data covers.
 */
module DateFilter {
  import opened Wrappers
  import opened JsText
  import opened Seqs
  import opened Sorting
  import opened Spreadsheet
  import Tally

  // ---------------------------------------------------------------------------------------
  // Finding the date column

  /** A header that names a date: it contains `日時` or `日付`, or `date` in any letter case. */
  predicate NamesDate(header: string) {
    Includes(header, "日時") || Includes(header, "日付") || Includes(ToLower(header), "date")
  }

  /** "The row holds a truthy value in `column` that `new Date` accepts." */
  function HasDate(h: Host, column: string): Row -> bool {
    row => RowDate(h, row, column).Some?
  }

  /** `rows.slice(0, 10)`: the rows whose values are sampled. */
  function Sample(rows: seq<Row>): (r: seq<Row>)
    ensures |r| == (if |rows| < 10 then |rows| else 10) && r == rows[..|r|]
  {
    if |rows| <= 10 then rows else rows[..10]
  }

  /** `dateCount / values.length >= 0.8` over the sample; with no rows the quotient is `NaN`
    * and the comparison is false. */
  predicate ValuesLookLikeDates(h: Host, rows: seq<Row>, header: string) {
    var sample := Sample(rows);
    |sample| > 0 && 5 * Count(sample, HasDate(h, header)) >= 4 * |sample|
  }

  function LooksLikeDates(h: Host, rows: seq<Row>): string -> bool {
    header => ValuesLookLikeDates(h, rows, header)
  }

  /** Header `i` is the first one satisfying `p`. */
  predicate IsFirst(headers: seq<string>, p: string -> bool, i: int) {
    0 <= i < |headers| && p(headers[i]) && forall j :: 0 <= j < i ==> !p(headers[j])
  }

  /** The loop `for (const header of data.headers) if (p(header)) return header;`. */
  function FirstHeader(headers: seq<string>, p: string -> bool): (r: Option<string>)
    ensures r.None? <==> forall i :: 0 <= i < |headers| ==> !p(headers[i])
    ensures r.Some? ==> exists i :: IsFirst(headers, p, i) && headers[i] == r.value
    decreases |headers|
  {
    if headers == [] then None
    else if p(headers[0]) then
      assert IsFirst(headers, p, 0);
      Some(headers[0])
    else
      var r := FirstHeader(headers[1..], p);
      assert forall i :: 1 <= i < |headers| ==> headers[i] == headers[1..][i - 1];
      if r.Some? then
        var i :| IsFirst(headers[1..], p, i) && headers[1..][i] == r.value;
        assert IsFirst(headers, p, i + 1);
        r
      else r
  }

  /** The first header satisfying `p` is what the search returns. */
  lemma FirstHeaderIs(headers: seq<string>, p: string -> bool, i: int)
    requires IsFirst(headers, p, i)
    ensures FirstHeader(headers, p) == Some(headers[i])
  {
    var r := FirstHeader(headers, p);
    var k :| IsFirst(headers, p, k) && headers[k] == r.value;
  }

  /** `detectDateColumn`: a header naming a date wins; only when none does are the first ten
    * values of each column looked at. */
  function DetectDateColumn(h: Host, data: Dataset): (r: Option<string>)
    ensures r.Some? ==> r.value in data.headers
  {
    var byName := FirstHeader(data.headers, NamesDate);
    if byName.Some? then byName else FirstHeader(data.headers, LooksLikeDates(h, data.rows))
  }

  /** The first header naming a date is the date column, whatever the data holds. */
  lemma DetectByName(h: Host, data: Dataset, i: int)
    requires IsFirst(data.headers, NamesDate, i)
    ensures DetectDateColumn(h, data) == Some(data.headers[i])
  {
    FirstHeaderIs(data.headers, NamesDate, i);
  }

  /** When no header names a date, the date column is the first one whose sample is at least
    * 80% dates. */
  lemma DetectByValues(h: Host, data: Dataset, i: int)
    requires forall j :: 0 <= j < |data.headers| ==> !NamesDate(data.headers[j])
    requires IsFirst(data.headers, LooksLikeDates(h, data.rows), i)
    ensures DetectDateColumn(h, data) == Some(data.headers[i])
  {
    FirstHeaderIs(data.headers, LooksLikeDates(h, data.rows), i);
  }

  /** There is no date column exactly when no header names a date and no sample looks like dates. */
  lemma DetectNone(h: Host, data: Dataset)
    ensures DetectDateColumn(h, data).None? <==>
      forall j :: 0 <= j < |data.headers| ==> !NamesDate(data.headers[j]) && !ValuesLookLikeDates(h, data.rows, data.headers[j])
  {
  }

  /** Without rows only the header names can find a date column. */
  lemma DetectWithoutRows(h: Host, data: Dataset)
    requires data.rows == []
    ensures DetectDateColumn(h, data).Some? <==> exists j :: 0 <= j < |data.headers| && NamesDate(data.headers[j])
  {
    DetectNone(h, data);
  }

  // ---------------------------------------------------------------------------------------
  // Filtering by period

  datatype Period = AllPeriod | MonthPeriod | CustomPeriod

  /** `DateFilter`: the period and its optional bounds (timestamps of valid dates) and month. */
  datatype PeriodFilter = PeriodFilter(period: Period, startDate: Option<int>, endDate: Option<int>, selectedMonth: Option<string>)

  /** `filter.period === 'month' && filter.selectedMonth`: an empty month is falsy. */
  predicate SelectsMonth(f: PeriodFilter) {
    f.period == MonthPeriod && f.selectedMonth.Some? && f.selectedMonth.value != ""
  }

  /** The custom window: not before the start, and not after the last millisecond of the end day. */
  predicate InWindow(h: Host, f: PeriodFilter, t: int) {
    (f.startDate.None? || t >= f.startDate.value) && (f.endDate.None? || t <= h.endOfDay(f.endDate.value))
  }

  /** The callback of `data.rows.filter` in `filterDataByPeriod`. */
  predicate KeepsRow(h: Host, column: string, f: PeriodFilter, row: Row) {
    match RowDate(h, row, column)
    case None => false
    case Some(t) =>
      if SelectsMonth(f) then LocalYearMonth(h, t) == f.selectedMonth.value
      else if f.period == CustomPeriod then InWindow(h, f, t)
      else true
  }

  function Keeps(h: Host, column: string, f: PeriodFilter): Row -> bool {
    row => KeepsRow(h, column, f, row)
  }

  /** `filterDataByPeriod`: the headers and file details are kept, and no row is added. */
  function FilterDataByPeriod(h: Host, data: Dataset, column: string, f: PeriodFilter): (r: Dataset)
    ensures r.headers == data.headers && r.fileName == data.fileName && r.uploadedAt == data.uploadedAt
    ensures |r.rows| <= |data.rows|
  {
    if f.period == AllPeriod then data else data.(rows := Filter(data.rows, Keeps(h, column, f)))
  }

  /** `'all'` returns the data itself; any other period keeps the headers and file details and
    * exactly the rows the callback accepts, in their order. */
  lemma FilterDataByPeriodSpec(h: Host, data: Dataset, column: string, f: PeriodFilter)
    ensures var r := FilterDataByPeriod(h, data, column, f);
      r.headers == data.headers && r.fileName == data.fileName && r.uploadedAt == data.uploadedAt &&
      IsSubsequence(r.rows, data.rows) &&
      (f.period == AllPeriod ==> r == data) &&
      (f.period != AllPeriod ==> forall row :: row in r.rows <==> row in data.rows && KeepsRow(h, column, f, row))
  {
    var r := FilterDataByPeriod(h, data, column, f);
    if f.period == AllPeriod {
      IsSubsequenceOfItself(data.rows);
    } else {
      FilterIsSubsequence(data.rows, Keeps(h, column, f));
      forall row | row in data.rows && KeepsRow(h, column, f, row)
        ensures row in r.rows
      {
        FilterKeeps(data.rows, Keeps(h, column, f), row);
      }
    }
  }

  lemma {:induction false} IsSubsequenceOfItself<T>(s: seq<T>)
    ensures IsSubsequence(s, s)
    decreases |s|
  {
    if s != [] {
      IsSubsequenceOfItself(s[..|s| - 1]);
    }
  }

  /** Whatever the period other than `'all'`, a row with an empty or unparseable date is dropped. */
  lemma DropsRowsWithoutDate(h: Host, column: string, f: PeriodFilter, row: Row)
    requires RowDate(h, row, column).None?
    ensures !KeepsRow(h, column, f, row)
  {
  }

  /** Month mode keeps a dated row exactly when its local year-month is the selected month;
    * without a selected month it keeps every dated row. */
  lemma MonthModeKeeps(h: Host, column: string, f: PeriodFilter, row: Row, t: int)
    requires f.period == MonthPeriod && RowDate(h, row, column) == Some(t)
    ensures SelectsMonth(f) ==> (KeepsRow(h, column, f, row) <==> LocalYearMonth(h, t) == f.selectedMonth.value)
    ensures !SelectsMonth(f) ==> KeepsRow(h, column, f, row)
  {
  }

  /** Custom mode includes the start instant and the whole end day: a row dated anywhere from the
    * start through the end instant itself is kept, and one after the end day is dropped. */
  lemma CustomWindowBounds(h: Host, column: string, f: PeriodFilter, row: Row, t: int)
    requires ValidHost(h)
    requires f.period == CustomPeriod && RowDate(h, row, column) == Some(t)
    ensures (f.startDate.None? || f.startDate.value <= t) && (f.endDate.None? || t <= f.endDate.value) ==> KeepsRow(h, column, f, row)
    ensures f.startDate.Some? && t < f.startDate.value ==> !KeepsRow(h, column, f, row)
    ensures f.endDate.Some? && t > h.endOfDay(f.endDate.value) ==> !KeepsRow(h, column, f, row)
  {
    if f.endDate.Some? {
      assert h.endOfDay(f.endDate.value) >= f.endDate.value;
    }
  }

  /** A custom window with no bounds keeps every dated row. */
  lemma UnboundedWindowKeepsDated(h: Host, column: string, f: PeriodFilter, row: Row)
    requires f.period == CustomPeriod && f.startDate.None? && f.endDate.None?
    ensures KeepsRow(h, column, f, row) <==> RowDate(h, row, column).Some?
  {
  }

  /** A custom window containing another never keeps fewer rows. */
  lemma WiderWindowKeepsMore(h: Host, data: Dataset, column: string, narrow: PeriodFilter, wide: PeriodFilter)
    requires narrow.period == CustomPeriod && wide.period == CustomPeriod
    requires forall t :: InWindow(h, narrow, t) ==> InWindow(h, wide, t)
    ensures |FilterDataByPeriod(h, data, column, narrow).rows| <= |FilterDataByPeriod(h, data, column, wide).rows|
  {
    CountMonotonic(data.rows, Keeps(h, column, narrow), Keeps(h, column, wide));
    CountIsFilterLength(data.rows, Keeps(h, column, narrow));
    CountIsFilterLength(data.rows, Keeps(h, column, wide));
  }

  // ---------------------------------------------------------------------------------------
  // The dates in a column

  /** The timestamps of the rows with a truthy, parseable date, in row order. */
  function Dates(h: Host, rows: seq<Row>, column: string): seq<int>
    decreases |rows|
  {
    if rows == [] then []
    else
      var last := RowDate(h, rows[|rows| - 1], column);
      Dates(h, rows[..|rows| - 1], column) + (if last.Some? then [last.value] else [])
  }

  /** A timestamp is among the dates exactly when some row holds it. */
  lemma {:induction false} DatesMembers(h: Host, rows: seq<Row>, column: string, t: int)
    ensures t in Dates(h, rows, column) <==> exists i :: 0 <= i < |rows| && RowDate(h, rows[i], column) == Some(t)
    decreases |rows|
  {
    if rows != [] {
      var init := rows[..|rows| - 1];
      DatesMembers(h, init, column, t);
      assert forall i :: 0 <= i < |init| ==> init[i] == rows[i];
    }
  }

  /** The dates are as many as the dated rows. */
  lemma {:induction false} DatesCount(h: Host, rows: seq<Row>, column: string)
    ensures |Dates(h, rows, column)| == Count(rows, HasDate(h, column))
    decreases |rows|
  {
    if rows != [] {
      DatesCount(h, rows[..|rows| - 1], column);
    }
  }

  /** One row more adds its date, if it has one. */
  lemma DatesStep(h: Host, rows: seq<Row>, column: string, i: nat)
    requires i < |rows|
    ensures Dates(h, rows[..i + 1], column) ==
      Dates(h, rows[..i], column) + (if RowDate(h, rows[i], column).Some? then [RowDate(h, rows[i], column).value] else [])
  {
    assert rows[..i + 1][..i] == rows[..i];
  }

  // ---------------------------------------------------------------------------------------
  // Available months

  function MonthOf(h: Host): int -> string {
    t => LocalYearMonth(h, t)
  }

  /** The local year-month of every dated row, in row order. */
  function Months(h: Host, rows: seq<Row>, column: string): seq<string> {
    MapSeq(Dates(h, rows, column), MonthOf(h))
  }

  /** `Array.from(monthSet).sort().reverse()` */
  function AvailableMonthsOf(h: Host, rows: seq<Row>, column: string): seq<string> {
    Reversed(SortStrings(Distinct(Months(h, rows, column))))
  }

  /** `getAvailableMonths`: fills the month set row by row, then sorts it and reverses it. */
  method GetAvailableMonths(h: Host, data: Dataset, column: string) returns (months: seq<string>)
    ensures months == AvailableMonthsOf(h, data.rows, column)
  {
    var monthSet: seq<string> := [];
    for i := 0 to |data.rows|
      invariant monthSet == Distinct(Months(h, data.rows[..i], column))
    {
      DistinctMonthsStep(h, data.rows, column, i);
      var date := RowDate(h, data.rows[i], column);
      if date.Some? {
        var yearMonth := LocalYearMonth(h, date.value);
        if yearMonth !in monthSet {
          monthSet := monthSet + [yearMonth];
        }
      }
    }
    assert data.rows[..|data.rows|] == data.rows;
    months := Reversed(SortStrings(monthSet));
  }

  /** One row more adds its month to the set, unless it has no date or the month is there. */
  lemma DistinctMonthsStep(h: Host, rows: seq<Row>, column: string, i: nat)
    requires i < |rows|
    ensures var d := RowDate(h, rows[i], column); var before := Distinct(Months(h, rows[..i], column));
      Distinct(Months(h, rows[..i + 1], column)) ==
        if d.Some? && LocalYearMonth(h, d.value) !in before then before + [LocalYearMonth(h, d.value)] else before
  {
    DatesStep(h, rows, column, i);
    var date := RowDate(h, rows[i], column);
    var before := Months(h, rows[..i], column);
    if date.Some? {
      var yearMonth := LocalYearMonth(h, date.value);
      assert Months(h, rows[..i + 1], column) == before + [yearMonth];
      assert (before + [yearMonth])[..|before|] == before;
    } else {
      assert Months(h, rows[..i + 1], column) == before;
    }
  }

  /** The months offered are exactly the months of the dated rows, each once, newest first. */
  lemma AvailableMonthsSpec(h: Host, rows: seq<Row>, column: string)
    ensures var r := AvailableMonthsOf(h, rows, column);
      (forall m :: m in r <==> exists i :: 0 <= i < |rows| && RowDate(h, rows[i], column).Some? && LocalYearMonth(h, RowDate(h, rows[i], column).value) == m) &&
      forall i, j :: 0 <= i < j < |r| ==> StrLt(r[j], r[i])
  {
    var distinct := Distinct(Months(h, rows, column));
    forall m
      ensures m in AvailableMonthsOf(h, rows, column) <==>
        exists i :: 0 <= i < |rows| && RowDate(h, rows[i], column).Some? && LocalYearMonth(h, RowDate(h, rows[i], column).value) == m
    {
      MonthsMembers(h, rows, column, m);
      NewestFirstMembers(distinct, m);
    }
    NewestFirstDescending(distinct);
  }

  /** Sorting and reversing keeps the members. */
  lemma NewestFirstMembers(s: seq<string>, m: string)
    ensures m in Reversed(SortStrings(s)) <==> m in s
  {
    var sorted := SortStrings(s);
    var r := Reversed(sorted);
    assert m in sorted <==> m in multiset(s);
    if m in sorted {
      var k :| 0 <= k < |sorted| && sorted[k] == m;
      assert r[|r| - 1 - k] == m;
    }
  }

  /** A list without repetitions, sorted and reversed, is strictly descending. */
  lemma NewestFirstDescending(s: seq<string>)
    requires forall i, j :: 0 <= i < j < |s| ==> s[i] != s[j]
    ensures var r := Reversed(SortStrings(s)); forall i, j :: 0 <= i < j < |r| ==> StrLt(r[j], r[i])
  {
    var sorted := SortStrings(s);
    var r := Reversed(sorted);
    Tally.SortStringsStrict(s);
    forall i, j | 0 <= i < j < |r|
      ensures StrLt(r[j], r[i])
    {
      assert r[j] == sorted[|r| - 1 - j] && r[i] == sorted[|r| - 1 - i];
    }
  }

  lemma MonthsMembers(h: Host, rows: seq<Row>, column: string, m: string)
    ensures m in Months(h, rows, column) <==>
      exists i :: 0 <= i < |rows| && RowDate(h, rows[i], column).Some? && LocalYearMonth(h, RowDate(h, rows[i], column).value) == m
  {
    var dates := Dates(h, rows, column);
    if m in Months(h, rows, column) {
      var k :| 0 <= k < |dates| && LocalYearMonth(h, dates[k]) == m;
      DatesMembers(h, rows, column, dates[k]);
    }
    if exists i :: 0 <= i < |rows| && RowDate(h, rows[i], column).Some? && LocalYearMonth(h, RowDate(h, rows[i], column).value) == m {
      var i :| 0 <= i < |rows| && RowDate(h, rows[i], column).Some? && LocalYearMonth(h, RowDate(h, rows[i], column).value) == m;
      var t := RowDate(h, rows[i], column).value;
      DatesMembers(h, rows, column, t);
      var k :| 0 <= k < |dates| && dates[k] == t;
      assert Months(h, rows, column)[k] == m;
    }
  }

  /** Choosing any offered month keeps at least one row. */
  lemma OfferedMonthSelectsRows(h: Host, data: Dataset, column: string, m: string)
    requires m in AvailableMonthsOf(h, data.rows, column)
    ensures FilterDataByPeriod(h, data, column, PeriodFilter(MonthPeriod, None, None, Some(m))).rows != []
  {
    NewestFirstMembers(Distinct(Months(h, data.rows, column)), m);
    MonthsMembers(h, data.rows, column, m);
    var i :| 0 <= i < |data.rows| && RowDate(h, data.rows[i], column).Some? && LocalYearMonth(h, RowDate(h, data.rows[i], column).value) == m;
    MonthRowSelected(h, data, column, m, i);
  }

  /** A row dated in the chosen month is kept. */
  lemma MonthRowSelected(h: Host, data: Dataset, column: string, m: string, i: int)
    requires 0 <= i < |data.rows| && RowDate(h, data.rows[i], column).Some?
    requires LocalYearMonth(h, RowDate(h, data.rows[i], column).value) == m
    ensures FilterDataByPeriod(h, data, column, PeriodFilter(MonthPeriod, None, None, Some(m))).rows != []
  {
    var f := PeriodFilter(MonthPeriod, None, None, Some(m));
    MonthKeepsRow(h, column, m, data.rows[i]);
    FilterKeeps(data.rows, Keeps(h, column, f), data.rows[i]);
  }

  lemma MonthKeepsRow(h: Host, column: string, m: string, row: Row)
    requires RowDate(h, row, column).Some? && LocalYearMonth(h, RowDate(h, row, column).value) == m
    ensures KeepsRow(h, column, PeriodFilter(MonthPeriod, None, None, Some(m)), row)
  {
    YearMonthNotEmpty(h, RowDate(h, row, column).value);
  }

  lemma YearMonthNotEmpty(h: Host, t: int)
    ensures LocalYearMonth(h, t) != ""
  {
  }

  // ---------------------------------------------------------------------------------------
  // Date range

  datatype DateRange = DateRange(min: int, max: int)

  /** The first and last of the dates sorted by timestamp, or `null` when there are none. */
  function DateRangeOf(h: Host, rows: seq<Row>, column: string): Option<DateRange> {
    var dates := Dates(h, rows, column);
    if dates == [] then None
    else
      var sorted := SortInts(dates);
      Some(DateRange(sorted[0], sorted[|sorted| - 1]))
  }

  /** `getDateRange`: collects the dates row by row, sorts them and takes both ends. */
  method GetDateRange(h: Host, data: Dataset, column: string) returns (r: Option<DateRange>)
    ensures r == DateRangeOf(h, data.rows, column)
  {
    var dates: seq<int> := [];
    for i := 0 to |data.rows|
      invariant dates == Dates(h, data.rows[..i], column)
    {
      DatesStep(h, data.rows, column, i);
      var date := RowDate(h, data.rows[i], column);
      if date.Some? {
        dates := dates + [date.value];
      }
    }
    assert data.rows[..|data.rows|] == data.rows;
    if |dates| == 0 {
      return None;
    }
    var sorted := SortInts(dates);
    r := Some(DateRange(sorted[0], sorted[|sorted| - 1]));
  }

  /** There is a range exactly when some row is dated; its ends are the earliest and the latest
    * date, so `min <= max`. */
  lemma DateRangeSpec(h: Host, rows: seq<Row>, column: string)
    ensures DateRangeOf(h, rows, column).None? <==> forall i :: 0 <= i < |rows| ==> RowDate(h, rows[i], column).None?
    ensures DateRangeOf(h, rows, column).Some? ==>
      var dates := Dates(h, rows, column);
      var range := DateRangeOf(h, rows, column).value;
      range.min == Min(dates) && range.max == Max(dates) && range.min <= range.max
  {
    var dates := Dates(h, rows, column);
    if dates == [] {
      forall i | 0 <= i < |rows|
        ensures RowDate(h, rows[i], column).None?
      {
        if RowDate(h, rows[i], column).Some? {
          DatesMembers(h, rows, column, RowDate(h, rows[i], column).value);
        }
      }
    } else {
      DatesMembers(h, rows, column, dates[0]);
      SortIntsEnds(dates);
    }
  }
}
