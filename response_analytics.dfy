/**
 * Month-over-month response counts (`responseAnalytics.ts`): every row whose date text starts
 * with a `YYYY-MM` month counts for that month, and the months are reported in ascending order
 * with the change from the month before.
 */
module ResponseAnalytics {
  import opened Wrappers
  import opened JsText
  import opened Seqs
  import opened Sorting
  import opened Spreadsheet
  import opened Tally
  import MediaAnalytics

  // ---------------------------------------------------------------------------------------
  // Monthly counts

  /** The month of a row: the first seven characters of the date part of
    * `String(row[dateColumn] || '')`, when that part has at least seven. */
  function MonthKey(h: Host, row: Row, column: string): (r: Option<string>)
    ensures r.Some? ==> |r.value| == 7 && StartsWith(DatePart(TextOrEmpty(h, row, column)), r.value)
  {
    var datePart := DatePart(TextOrEmpty(h, row, column));
    if |datePart| >= 7 then Some(datePart[..7]) else None
  }

  /** The month of every row that has one, in row order. */
  function MonthKeys(h: Host, rows: seq<Row>, column: string): seq<string>
    decreases |rows|
  {
    if rows == [] then []
    else
      var last := MonthKey(h, rows[|rows| - 1], column);
      MonthKeys(h, rows[..|rows| - 1], column) + (if last.Some? then [last.value] else [])
  }

  lemma MonthKeysStep(h: Host, rows: seq<Row>, column: string, i: nat)
    requires i < |rows|
    ensures MonthKeys(h, rows[..i + 1], column) == MonthKeys(h, rows[..i], column) +
      (if MonthKey(h, rows[i], column).Some? then [MonthKey(h, rows[i], column).value] else [])
  {
    assert rows[..i + 1][..i] == rows[..i];
  }

  /** A month is among the keys exactly when some row has it. */
  lemma MonthKeysMembers(h: Host, rows: seq<Row>, column: string, m: string)
    ensures m in MonthKeys(h, rows, column) <==> exists i :: 0 <= i < |rows| && MonthKey(h, rows[i], column) == Some(m)
  {
    if m in MonthKeys(h, rows, column) {
      MonthKeysSound(h, rows, column, m);
    }
    if exists i :: 0 <= i < |rows| && MonthKey(h, rows[i], column) == Some(m) {
      var i :| 0 <= i < |rows| && MonthKey(h, rows[i], column) == Some(m);
      MonthKeysComplete(h, rows, column, i);
    }
  }

  lemma {:induction false} MonthKeysSound(h: Host, rows: seq<Row>, column: string, m: string)
    requires m in MonthKeys(h, rows, column)
    ensures exists i :: 0 <= i < |rows| && MonthKey(h, rows[i], column) == Some(m)
    decreases |rows|
  {
    var init, n := rows[..|rows| - 1], |rows| - 1;
    var last := MonthKey(h, rows[n], column);
    if m in MonthKeys(h, init, column) {
      MonthKeysSound(h, init, column, m);
      var i :| 0 <= i < |init| && MonthKey(h, init[i], column) == Some(m);
      assert rows[i] == init[i];
    } else {
      assert m in (if last.Some? then [last.value] else []);
    }
  }

  lemma {:induction false} MonthKeysComplete(h: Host, rows: seq<Row>, column: string, i: int)
    requires 0 <= i < |rows| && MonthKey(h, rows[i], column).Some?
    ensures MonthKey(h, rows[i], column).value in MonthKeys(h, rows, column)
    decreases |rows|
  {
    var init := rows[..|rows| - 1];
    if i < |init| {
      assert init[i] == rows[i];
      MonthKeysComplete(h, init, column, i);
    }
  }

  /** The rows that have a month, each counted once. */
  function HasMonth(h: Host, column: string): Row -> bool {
    row => MonthKey(h, row, column).Some?
  }

  lemma {:induction false} MonthKeysCount(h: Host, rows: seq<Row>, column: string)
    ensures |MonthKeys(h, rows, column)| == Count(rows, HasMonth(h, column))
    decreases |rows|
  {
    if rows != [] {
      MonthKeysCount(h, rows[..|rows| - 1], column);
    }
  }

  /** `MonthlyResponseCount` */
  datatype MonthlyCount = MonthlyCount(yearMonth: string, count: nat, changeFromPrevMonth: Option<int>, changeRateFromPrevMonth: Option<real>)

  /** The entry of month `i` of the sorted months, given each month's count. */
  function MonthlyEntry(sortedMonths: seq<string>, counts: map<string, nat>, i: nat): MonthlyCount
    requires i < |sortedMonths| && forall k :: 0 <= k < |sortedMonths| ==> sortedMonths[k] in counts
  {
    var count := counts[sortedMonths[i]];
    if i == 0 then MonthlyCount(sortedMonths[i], count, None, None)
    else
      var prevCount := counts[sortedMonths[i - 1]];
      var change := count as int - prevCount as int;
      MonthlyCount(sortedMonths[i], count, Some(change),
        if prevCount > 0 then Some(MediaAnalytics.Percent(change as real, prevCount as real)) else None)
  }

  /** `sortedMonths.map(...)` */
  function MonthlyEntries(sortedMonths: seq<string>, counts: map<string, nat>): (r: seq<MonthlyCount>)
    requires forall k :: 0 <= k < |sortedMonths| ==> sortedMonths[k] in counts
    ensures |r| == |sortedMonths| && forall i :: 0 <= i < |r| ==> r[i] == MonthlyEntry(sortedMonths, counts, i)
  {
    seq(|sortedMonths|, i requires 0 <= i < |sortedMonths| => MonthlyEntry(sortedMonths, counts, i))
  }

  /** Each month of `keys` with its number of occurrences. */
  function OccurrenceMap(keys: seq<string>): (r: map<string, nat>)
    ensures forall k :: k in r <==> k in keys
    ensures forall k :: k in r ==> r[k] == Occurrences(keys, k)
  {
    map k | k in keys :: Occurrences(keys, k)
  }

  /** The months in ascending order. */
  function SortedMonths(h: Host, rows: seq<Row>, column: string): (r: seq<string>)
    ensures forall k :: 0 <= k < |r| ==> r[k] in MonthKeys(h, rows, column)
  {
    var keys := MonthKeys(h, rows, column);
    var r := SortStrings(Distinct(keys));
    assert forall k :: 0 <= k < |r| ==> r[k] in multiset(Distinct(keys));
    r
  }

  /** What `calculateMonthlyResponseCounts` returns. */
  function MonthlyCountsOf(h: Host, rows: seq<Row>, column: string): seq<MonthlyCount> {
    MonthlyEntries(SortedMonths(h, rows, column), OccurrenceMap(MonthKeys(h, rows, column)))
  }

  /** `calculateMonthlyResponseCounts`: fills the month map row by row, sorts its keys and maps
    * each month to its count and its change from the month before. */
  method CalculateMonthlyResponseCounts(h: Host, data: Dataset, column: string) returns (monthlyData: seq<MonthlyCount>)
    ensures monthlyData == MonthlyCountsOf(h, data.rows, column)
  {
    var months: seq<string> := [];
    for i := 0 to |data.rows|
      invariant months == MonthKeys(h, data.rows[..i], column)
    {
      MonthKeysStep(h, data.rows, column, i);
      var yearMonth := MonthKey(h, data.rows[i], column);
      if yearMonth.Some? {
        months := months + [yearMonth.value];
      }
    }
    assert data.rows[..|data.rows|] == data.rows;
    var keys, monthCountMap := CountByKey(months);
    var sortedMonths := SortStrings(keys);
    assert sortedMonths == SortedMonths(h, data.rows, column);
    assert monthCountMap == OccurrenceMap(months);
    monthlyData := MonthlyEntries(sortedMonths, monthCountMap);
  }

  /** The entries follow the months, each with the month's count. */
  lemma EntriesMonths(sortedMonths: seq<string>, counts: map<string, nat>)
    requires forall k :: 0 <= k < |sortedMonths| ==> sortedMonths[k] in counts
    ensures var r := MonthlyEntries(sortedMonths, counts);
      forall i :: 0 <= i < |r| ==> r[i].yearMonth == sortedMonths[i] && r[i].count == counts[sortedMonths[i]]
  {
  }

  /** The months come once each in strictly ascending order, are exactly the months of the rows,
    * and carry the number of rows of that month, at least one. */
  lemma MonthlyCountsMonths(h: Host, rows: seq<Row>, column: string)
    ensures var r := MonthlyCountsOf(h, rows, column);
      (forall i, j :: 0 <= i < j < |r| ==> StrLt(r[i].yearMonth, r[j].yearMonth)) &&
      (forall m :: (exists i :: 0 <= i < |r| && r[i].yearMonth == m) <==> exists k :: 0 <= k < |rows| && MonthKey(h, rows[k], column) == Some(m)) &&
      (forall i :: 0 <= i < |r| ==> r[i].count == Occurrences(MonthKeys(h, rows, column), r[i].yearMonth) >= 1)
  {
    var keys := MonthKeys(h, rows, column);
    var sorted := SortedMonths(h, rows, column);
    EntriesCounts(h, rows, column);
    MonthsOfRows(h, rows, column, sorted, keys);
    SortStringsStrict(Distinct(keys));
    FollowMonths(MonthlyCountsOf(h, rows, column), sorted, keys, rows, h, column);
  }

  /** Entry `i` is the `i`-th month with its number of occurrences, at least one. */
  lemma EntriesCounts(h: Host, rows: seq<Row>, column: string)
    ensures var r := MonthlyCountsOf(h, rows, column); var sorted := SortedMonths(h, rows, column);
      |r| == |sorted| && forall i :: 0 <= i < |r| ==> r[i].yearMonth == sorted[i] && r[i].count == Occurrences(MonthKeys(h, rows, column), sorted[i]) >= 1
  {
    var keys := MonthKeys(h, rows, column);
    var sorted := SortedMonths(h, rows, column);
    EntriesMonths(sorted, OccurrenceMap(keys));
    CountsPositive(h, rows, column);
  }

  /** The sorted months are the months of the rows. */
  lemma MonthsOfRows(h: Host, rows: seq<Row>, column: string, sorted: seq<string>, keys: seq<string>)
    requires keys == MonthKeys(h, rows, column) && sorted == SortStrings(Distinct(keys))
    ensures forall m :: m in sorted <==> exists k :: 0 <= k < |rows| && MonthKey(h, rows[k], column) == Some(m)
  {
    forall m
      ensures m in sorted <==> exists k :: 0 <= k < |rows| && MonthKey(h, rows[k], column) == Some(m)
    {
      MonthKeysMembers(h, rows, column, m);
      assert m in sorted <==> m in multiset(Distinct(keys));
    }
  }

  /** Entries that follow strictly ascending months carry those months' properties. */
  lemma FollowMonths(r: seq<MonthlyCount>, sorted: seq<string>, keys: seq<string>, rows: seq<Row>, h: Host, column: string)
    requires |r| == |sorted| && forall i :: 0 <= i < |r| ==> r[i].yearMonth == sorted[i] && r[i].count == Occurrences(keys, sorted[i]) >= 1
    requires forall i, j :: 0 <= i < j < |sorted| ==> StrLt(sorted[i], sorted[j])
    requires forall m :: m in sorted <==> exists k :: 0 <= k < |rows| && MonthKey(h, rows[k], column) == Some(m)
    ensures (forall i, j :: 0 <= i < j < |r| ==> StrLt(r[i].yearMonth, r[j].yearMonth)) &&
      (forall m :: (exists i :: 0 <= i < |r| && r[i].yearMonth == m) <==> exists k :: 0 <= k < |rows| && MonthKey(h, rows[k], column) == Some(m)) &&
      (forall i :: 0 <= i < |r| ==> r[i].count == Occurrences(keys, r[i].yearMonth) >= 1)
  {
    forall m | exists i :: 0 <= i < |r| && r[i].yearMonth == m
      ensures exists k :: 0 <= k < |rows| && MonthKey(h, rows[k], column) == Some(m)
    {
      var i :| 0 <= i < |r| && r[i].yearMonth == m;
      assert sorted[i] == m;
      assert m in sorted;
    }
    forall m | exists k :: 0 <= k < |rows| && MonthKey(h, rows[k], column) == Some(m)
      ensures exists i :: 0 <= i < |r| && r[i].yearMonth == m
    {
      assert m in sorted;
      var i :| 0 <= i < |sorted| && sorted[i] == m;
      assert r[i].yearMonth == m;
    }
    assert forall m :: (exists i :: 0 <= i < |r| && r[i].yearMonth == m) ==> exists k :: 0 <= k < |rows| && MonthKey(h, rows[k], column) == Some(m);
    assert forall m :: (exists i :: 0 <= i < |r| && r[i].yearMonth == m) <== exists k :: 0 <= k < |rows| && MonthKey(h, rows[k], column) == Some(m);
    assert forall i, j :: 0 <= i < j < |r| ==> StrLt(r[i].yearMonth, r[j].yearMonth);
  }

  /** `cur` carries its difference from `prev` and that difference in percent of `prev`'s count. */
  predicate ChangedFrom(cur: MonthlyCount, prev: MonthlyCount) {
    cur.changeFromPrevMonth == Some(cur.count - prev.count) &&
    cur.changeRateFromPrevMonth.Some? &&
    MediaAnalytics.IsPercent(cur.changeRateFromPrevMonth.value, (cur.count - prev.count) as real, prev.count as real)
  }

  /** Over months whose counts are all positive: the first entry has no change, and each later
    * one the difference from the one before and that difference in percent of it. */
  lemma EntriesChanges(sortedMonths: seq<string>, counts: map<string, nat>)
    requires forall k :: 0 <= k < |sortedMonths| ==> sortedMonths[k] in counts && counts[sortedMonths[k]] >= 1
    ensures var r := MonthlyEntries(sortedMonths, counts);
      (|r| > 0 ==> r[0].changeFromPrevMonth.None? && r[0].changeRateFromPrevMonth.None?) &&
      forall i :: 0 < i < |r| ==> ChangedFrom(r[i], r[i - 1])
  {
  }

  /** The first month has no change; every later month has the difference from the month before
    * and, the month before having at least one response, the change in percent of it. */
  lemma MonthlyCountsChanges(h: Host, rows: seq<Row>, column: string)
    ensures var r := MonthlyCountsOf(h, rows, column);
      (|r| > 0 ==> r[0].changeFromPrevMonth.None? && r[0].changeRateFromPrevMonth.None?) &&
      forall i :: 0 < i < |r| ==> ChangedFrom(r[i], r[i - 1])
  {
    CountsPositive(h, rows, column);
    EntriesChanges(SortedMonths(h, rows, column), OccurrenceMap(MonthKeys(h, rows, column)));
  }

  /** Every month that occurs has a positive count. */
  lemma CountsPositive(h: Host, rows: seq<Row>, column: string)
    ensures var sorted := SortedMonths(h, rows, column); var counts := OccurrenceMap(MonthKeys(h, rows, column));
      forall k :: 0 <= k < |sorted| ==> sorted[k] in counts && counts[sorted[k]] >= 1
  {
    var keys := MonthKeys(h, rows, column);
    var sorted := SortedMonths(h, rows, column);
    forall k | 0 <= k < |sorted|
      ensures Occurrences(keys, sorted[k]) >= 1
    {
      OccurringIsCounted(keys, sorted[k]);
    }
  }

  /** The monthly counts add up to the rows that have a month. */
  lemma MonthlyCountsTotal(h: Host, rows: seq<Row>, column: string)
    ensures var r := MonthlyCountsOf(h, rows, column);
      MonthlySum(r) == Count(rows, HasMonth(h, column)) <= |rows|
  {
    var keys := MonthKeys(h, rows, column);
    var r := MonthlyCountsOf(h, rows, column);
    var entries := seq(|r|, i requires 0 <= i < |r| => (r[i].yearMonth, r[i].count));
    SortedEntries(h, rows, column, entries);
    TotalCountPermutation(entries, Entries(Distinct(keys), keys));
    CountsAddUp(keys);
    MonthlySumIsTotal(r, entries);
    MonthKeysCount(h, rows, column);
    CountBound(rows, HasMonth(h, column));
  }

  /** The (month, count) pairs of the report are the map's entries, reordered. */
  lemma SortedEntries(h: Host, rows: seq<Row>, column: string, entries: seq<(string, nat)>)
    requires var r := MonthlyCountsOf(h, rows, column);
      |entries| == |r| && forall i :: 0 <= i < |r| ==> entries[i] == (r[i].yearMonth, r[i].count)
    ensures var keys := MonthKeys(h, rows, column); multiset(entries) == multiset(Entries(Distinct(keys), keys))
  {
    var keys := MonthKeys(h, rows, column);
    var sorted := SortedMonths(h, rows, column);
    var distinct := Distinct(keys);
    var f := (m: string) => (m, Occurrences(keys, m));
    var byMonth := (a: (string, nat), b: (string, nat)) => StrLe(a.0, b.0);
    InsertionSortMap(distinct, StrAscending, f, byMonth);
    EntriesMonths(sorted, OccurrenceMap(keys));
    assert entries == MapSeq(sorted, f);
    assert Entries(distinct, keys) == MapSeq(distinct, f);
  }

  /** The sum of the monthly counts. */
  function MonthlySum(r: seq<MonthlyCount>): nat
    decreases |r|
  {
    if r == [] then 0 else MonthlySum(r[..|r| - 1]) + r[|r| - 1].count
  }

  lemma {:induction false} MonthlySumIsTotal(r: seq<MonthlyCount>, entries: seq<(string, nat)>)
    requires |entries| == |r| && forall i :: 0 <= i < |r| ==> entries[i].1 == r[i].count
    ensures MonthlySum(r) == TotalCount(entries)
    decreases |r|
  {
    if r != [] {
      MonthlySumIsTotal(r[..|r| - 1], entries[..|r| - 1]);
    }
  }

  // ---------------------------------------------------------------------------------------
  // Summary

  /** Index of the first greatest count (`item.count > peakMonth.count` keeps the earliest). */
  function PeakIndex(s: seq<MonthlyCount>): (r: nat)
    requires s != []
    ensures r < |s| && (forall j :: 0 <= j < |s| ==> s[j].count <= s[r].count) && (forall j :: 0 <= j < r ==> s[j].count < s[r].count)
    decreases |s|
  {
    if |s| == 1 then 0
    else
      var p := PeakIndex(s[..|s| - 1]);
      if s[|s| - 1].count > s[p].count then |s| - 1 else p
  }

  /** Index of the first smallest count (`item.count < lowestMonth.count` keeps the earliest). */
  function LowestIndex(s: seq<MonthlyCount>): (r: nat)
    requires s != []
    ensures r < |s| && (forall j :: 0 <= j < |s| ==> s[r].count <= s[j].count) && (forall j :: 0 <= j < r ==> s[r].count < s[j].count)
    decreases |s|
  {
    if |s| == 1 then 0
    else
      var p := LowestIndex(s[..|s| - 1]);
      if s[|s| - 1].count < s[p].count then |s| - 1 else p
  }

  function MonthAt(s: seq<MonthlyCount>, i: nat): (string, nat)
    requires i < |s|
  {
    (s[i].yearMonth, s[i].count)
  }

  function PeakOf(s: seq<MonthlyCount>): Option<(string, nat)> {
    if s == [] then None else Some(MonthAt(s, PeakIndex(s)))
  }

  function LowestOf(s: seq<MonthlyCount>): Option<(string, nat)> {
    if s == [] then None else Some(MonthAt(s, LowestIndex(s)))
  }

  /** The `forEach` that tracks the busiest and the quietest month. */
  method FindPeakAndLowest(monthlyData: seq<MonthlyCount>) returns (peakMonth: Option<(string, nat)>, lowestMonth: Option<(string, nat)>)
    ensures peakMonth == PeakOf(monthlyData) && lowestMonth == LowestOf(monthlyData)
  {
    peakMonth, lowestMonth := None, None;
    for i := 0 to |monthlyData|
      invariant peakMonth == PeakOf(monthlyData[..i]) && lowestMonth == LowestOf(monthlyData[..i])
    {
      var item := monthlyData[i];
      ghost var next := monthlyData[..i + 1];
      assert next[..i] == monthlyData[..i] && next[i] == item;
      if peakMonth.None? || item.count > peakMonth.value.1 {
        peakMonth := Some((item.yearMonth, item.count));
      }
      if lowestMonth.None? || item.count < lowestMonth.value.1 {
        lowestMonth := Some((item.yearMonth, item.count));
      }
    }
    assert monthlyData[..|monthlyData|] == monthlyData;
  }

  /** `ResponseAnalysisSummary`; `period` is the pair (start, end). */
  datatype Summary = Summary(totalCount: nat, monthlyData: seq<MonthlyCount>, averageMonthlyCount: real,
                             peakMonth: Option<(string, nat)>, lowestMonth: Option<(string, nat)>, period: (string, string))

  function SummaryOf(h: Host, rows: seq<Row>, column: string): Summary {
    var monthly := MonthlyCountsOf(h, rows, column);
    Summary(|rows|, monthly, MediaAnalytics.Ratio(|rows| as real, |monthly| as real), PeakOf(monthly), LowestOf(monthly),
      if |monthly| > 0 then (monthly[0].yearMonth, monthly[|monthly| - 1].yearMonth) else ("", ""))
  }

  /** `generateResponseAnalysisSummary` */
  method GenerateResponseAnalysisSummary(h: Host, data: Dataset, column: string) returns (r: Summary)
    ensures r == SummaryOf(h, data.rows, column)
  {
    var monthlyData := CalculateMonthlyResponseCounts(h, data, column);
    var totalCount := |data.rows|;
    var averageMonthlyCount := if |monthlyData| > 0 then totalCount as real / |monthlyData| as real else 0.0;
    var peakMonth, lowestMonth := FindPeakAndLowest(monthlyData);
    var period := if |monthlyData| > 0 then (monthlyData[0].yearMonth, monthlyData[|monthlyData| - 1].yearMonth) else ("", "");
    r := Summary(totalCount, monthlyData, averageMonthlyCount, peakMonth, lowestMonth, period);
  }

  /** The peak and the lowest entry are the earliest with the greatest and with the smallest
    * count, and exist exactly when some entry does. */
  lemma PeakAndLowestSpec(m: seq<MonthlyCount>)
    ensures (PeakOf(m).None? <==> m == []) && (LowestOf(m).None? <==> m == [])
    ensures PeakOf(m).Some? ==> exists i :: (0 <= i < |m| && PeakOf(m).value == (m[i].yearMonth, m[i].count) &&
      (forall j :: 0 <= j < |m| ==> m[j].count <= m[i].count) && (forall j :: 0 <= j < i ==> m[j].count < m[i].count))
    ensures LowestOf(m).Some? ==> exists i :: (0 <= i < |m| && LowestOf(m).value == (m[i].yearMonth, m[i].count) &&
      (forall j :: 0 <= j < |m| ==> m[i].count <= m[j].count) && (forall j :: 0 <= j < i ==> m[i].count < m[j].count))
  {
    if m != [] {
      var p := PeakIndex(m);
      var l := LowestIndex(m);
      assert MonthAt(m, p) == (m[p].yearMonth, m[p].count);
      assert MonthAt(m, l) == (m[l].yearMonth, m[l].count);
    }
  }

  /** In strictly ascending months the first and the last bound all of them. */
  lemma PeriodBounds(m: seq<MonthlyCount>)
    requires m != [] && forall i, j :: 0 <= i < j < |m| ==> StrLt(m[i].yearMonth, m[j].yearMonth)
    ensures forall j :: 0 <= j < |m| ==> StrLe(m[0].yearMonth, m[j].yearMonth) && StrLe(m[j].yearMonth, m[|m| - 1].yearMonth)
  {
  }

  /** The total counts every row, dated or not; the average spreads it over the months; the
    * busiest and the quietest month are those of `PeakAndLowestSpec`; the period runs from the
    * first to the last month, which bound all the others. */
  lemma SummarySpec(h: Host, rows: seq<Row>, column: string)
    ensures var r := SummaryOf(h, rows, column);
      var m := r.monthlyData;
      r.totalCount == |rows| && m == MonthlyCountsOf(h, rows, column) &&
      MediaAnalytics.IsRatio(r.averageMonthlyCount, |rows| as real, |m| as real) &&
      r.peakMonth == PeakOf(m) && r.lowestMonth == LowestOf(m) &&
      (m == [] ==> r.period == ("", "")) &&
      (m != [] ==> forall j :: 0 <= j < |m| ==> StrLe(r.period.0, m[j].yearMonth) && StrLe(m[j].yearMonth, r.period.1))
  {
    var m := MonthlyCountsOf(h, rows, column);
    if m != [] {
      MonthlyCountsMonths(h, rows, column);
      PeriodBounds(m);
    }
  }
}
