/**
 * The desired-rent overview: every month found in the date column, crossed with every channel,
 * analysed with the rent analysis, plus the average and median over all valid answers.
 */
module RentOverview {
  import opened Wrappers
  import opened JsText
  import opened Seqs
  import opened Sorting
  import opened Spreadsheet
  import opened MediaTypes
  import MediaAnalytics
  import RentAnalytics
  import RentTable

  /** `RentStatsByMonthMedia` */
  datatype RentStatsByMonthMedia = RentStatsByMonthMedia(
    yearMonth: string,
    mediaType: MediaType,
    averageRent: real,
    medianRent: int,
    minRent: int,
    maxRent: int,
    responseCount: nat)

  datatype Period = Period(start: string, end: string)

  /** `RentOverviewSummary` */
  datatype RentOverviewSummary = RentOverviewSummary(
    monthlyMediaStats: seq<RentStatsByMonthMedia>,
    overallAverage: real,
    overallMedian: int,
    period: Period,
    totalResponses: nat)

  // ---------------------------------------------------------------------------------------
  // The months of the data

  /** `^\d{4}<sep>\d{2}`: four digits, the separator, two digits, at the start. */
  predicate YearMonthAt(d: string, sep: char) {
    |d| >= 7 && AllDigits(d[..4]) && d[4] == sep && IsDigit(d[5]) && IsDigit(d[6])
  }

  /** A `YYYY-MM` text. */
  predicate IsYearMonthText(s: string) {
    YearMonthAt(s, '-') && |s| == 7
  }

  /** The month of a row: the first seven characters of the date part when they read `YYYY-MM`,
    * or `YYYY/MM` with the slash turned into a hyphen; `None` otherwise. */
  function RowYearMonth(h: Host, row: Row, dateColumn: string): (r: Option<string>)
    ensures r.Some? ==> IsYearMonthText(r.value)
  {
    var datePart := DatePart(TextOrEmpty(h, row, dateColumn));
    if YearMonthAt(datePart, '-') then Some(datePart[..7])
    else if YearMonthAt(datePart, '/') then Some(datePart[..4] + "-" + datePart[5..7])
    else None
  }

  /** The month is read straight off the date part: its first four and last two characters are
    * the date part's, and a month is found exactly when either pattern matches. */
  lemma RowYearMonthSpec(h: Host, row: Row, dateColumn: string)
    ensures var d := DatePart(TextOrEmpty(h, row, dateColumn));
      (RowYearMonth(h, row, dateColumn).Some? <==> YearMonthAt(d, '-') || YearMonthAt(d, '/')) &&
      (RowYearMonth(h, row, dateColumn).Some? ==>
        RowYearMonth(h, row, dateColumn).value[..4] == d[..4] && RowYearMonth(h, row, dateColumn).value[5..] == d[5..7]) &&
      (YearMonthAt(d, '-') ==> RowYearMonth(h, row, dateColumn) == Some(d[..7]))
  {
  }

  /** `Array.from(yearMonths)` after the `forEach`: the months in the order they first occur. */
  function MonthList(h: Host, rows: seq<Row>, dateColumn: string): seq<string>
    decreases |rows|
  {
    if rows == [] then []
    else
      var earlier := MonthList(h, rows[..|rows| - 1], dateColumn);
      var ym := RowYearMonth(h, rows[|rows| - 1], dateColumn);
      if ym.Some? && ym.value !in earlier then earlier + [ym.value] else earlier
  }

  /** The month list holds each month of a row exactly once, and nothing else. */
  lemma {:induction false} MonthListSpec(h: Host, rows: seq<Row>, dateColumn: string)
    ensures forall m :: m in MonthList(h, rows, dateColumn) <==>
      exists i :: 0 <= i < |rows| && RowYearMonth(h, rows[i], dateColumn) == Some(m)
    ensures forall i, j :: 0 <= i < j < |MonthList(h, rows, dateColumn)| ==>
      MonthList(h, rows, dateColumn)[i] != MonthList(h, rows, dateColumn)[j]
    decreases |rows|
  {
    if rows != [] {
      var init := rows[..|rows| - 1];
      MonthListSpec(h, init, dateColumn);
      assert forall i :: 0 <= i < |init| ==> init[i] == rows[i];
    }
  }

  /** The `forEach` that fills the `yearMonths` set. */
  method CollectYearMonths(h: Host, rows: seq<Row>, dateColumn: string) returns (months: seq<string>)
    ensures months == MonthList(h, rows, dateColumn)
  {
    months := [];
    for i := 0 to |rows|
      invariant months == MonthList(h, rows[..i], dateColumn)
    {
      var ym := RowYearMonth(h, rows[i], dateColumn);
      if ym.Some? && ym.value !in months {
        months := months + [ym.value];
      }
      assert rows[..i + 1][..i] == rows[..i];
    }
    assert rows[..|rows|] == rows;
  }

  // ---------------------------------------------------------------------------------------
  // The month × channel statistics

  /** The channels in `MEDIA_TYPES` order. */
  const Channels: seq<MediaType> := MediaTypeNames

  /** What the loops ask of `analyzeRent`: the analysis of one month and one channel. */
  type Analyzer = (string, MediaType) -> Option<RentAnalytics.RentAnalysis>

  /** `analyzeRent(csvData, mediaType, yearMonth, dateColumn, mediaColumn)`, reading answers with
    * `table` as the conversion table. */
  function ChannelAnalyzer(h: Host, table: seq<(string, RentAnalytics.RentBand)>, data: Dataset,
                           dateColumn: string, mediaColumn: string): Analyzer
  {
    (yearMonth: string, mediaType: MediaType) =>
      RentAnalytics.AnalyzeRentWith(h, table, data, mediaType, yearMonth, dateColumn, mediaColumn, RentTable.DefaultPetColumn)
  }

  /** Every analysis counts one valid answer per amount it lists. */
  ghost predicate CountsAmounts(analyze: Analyzer) {
    forall yearMonth, mediaType :: analyze(yearMonth, mediaType).Some? ==>
      analyze(yearMonth, mediaType).value.validCount == |analyze(yearMonth, mediaType).value.rentValues|
  }

  /** `analyzeRent` counts one valid answer per amount. */
  lemma ChannelAnalyzerCountsAmounts(h: Host, table: seq<(string, RentAnalytics.RentBand)>, data: Dataset,
                                     dateColumn: string, mediaColumn: string)
    ensures CountsAmounts(ChannelAnalyzer(h, table, data, dateColumn, mediaColumn))
  {
    var analyze := ChannelAnalyzer(h, table, data, dateColumn, mediaColumn);
    forall yearMonth, mediaType | analyze(yearMonth, mediaType).Some?
      ensures analyze(yearMonth, mediaType).value.validCount == |analyze(yearMonth, mediaType).value.rentValues|
    {
      RentAnalytics.AnalyzeRentCounts(h, table, data, mediaType, yearMonth, dateColumn, mediaColumn, RentTable.DefaultPetColumn);
    }
  }

  /** `analysis && analysis.validCount > 0` */
  predicate HasEntry(a: Option<RentAnalytics.RentAnalysis>) {
    a.Some? && a.value.validCount > 0
  }

  /** The entry pushed for an analysis. */
  function StatsOf(yearMonth: string, mediaType: MediaType, a: RentAnalytics.RentAnalysis): RentStatsByMonthMedia {
    RentStatsByMonthMedia(yearMonth, mediaType, a.averageRent, a.medianRent, a.minRent, a.maxRent, a.validCount)
  }

  /** The entries one month contributes, channel by channel. */
  function MonthEntries(analyze: Analyzer, yearMonth: string, channels: seq<MediaType>): seq<RentStatsByMonthMedia>
    decreases |channels|
  {
    if channels == [] then []
    else
      var mediaType := channels[|channels| - 1];
      var a := analyze(yearMonth, mediaType);
      MonthEntries(analyze, yearMonth, channels[..|channels| - 1]) +
        if HasEntry(a) then [StatsOf(yearMonth, mediaType, a.value)] else []
  }

  /** The valid amounts one month contributes, channel by channel. */
  function MonthValues(analyze: Analyzer, yearMonth: string, channels: seq<MediaType>): seq<int>
    decreases |channels|
  {
    if channels == [] then []
    else
      var a := analyze(yearMonth, channels[|channels| - 1]);
      MonthValues(analyze, yearMonth, channels[..|channels| - 1]) +
        if HasEntry(a) then a.value.rentValues else []
  }

  /** `monthlyMediaStats`: the entries of all the months, month by month. */
  function Entries(analyze: Analyzer, months: seq<string>): seq<RentStatsByMonthMedia>
    decreases |months|
  {
    if months == [] then []
    else Entries(analyze, months[..|months| - 1]) + MonthEntries(analyze, months[|months| - 1], Channels)
  }

  /** `allRentValues` */
  function Values(analyze: Analyzer, months: seq<string>): seq<int>
    decreases |months|
  {
    if months == [] then []
    else Values(analyze, months[..|months| - 1]) + MonthValues(analyze, months[|months| - 1], Channels)
  }

  /** The months of the overview: those of the data, sorted. */
  function SortedMonths(h: Host, data: Dataset, dateColumn: string): seq<string> {
    SortStrings(MonthList(h, data.rows, dateColumn))
  }

  /** The summary the overview promises for an analysis of each month and channel and the sorted
    * months: the entries and amounts month by month and channel by channel, the average and the
    * median of the amounts (0 without any), and the first and last month. */
  ghost predicate IsOverview(summary: RentOverviewSummary, analyze: Analyzer, months: seq<string>) {
    var values := Values(analyze, months);
    summary.monthlyMediaStats == Entries(analyze, months) &&
    summary.totalResponses == |values| &&
    (values == [] ==> summary.overallAverage == 0.0 && summary.overallMedian == 0) &&
    (values != [] ==>
      MediaAnalytics.IsRatio(summary.overallAverage, Sum(values) as real, |values| as real) &&
      summary.overallMedian == SortInts(values)[|values| / 2]) &&
    summary.period == (if months == [] then Period("", "") else Period(months[0], months[|months| - 1]))
  }

  /** The inner `MEDIA_TYPES.forEach`: one month's entries and amounts, channel by channel. */
  method CollectMonth(analyze: Analyzer, yearMonth: string)
    returns (stats: seq<RentStatsByMonthMedia>, values: seq<int>)
    ensures stats == MonthEntries(analyze, yearMonth, Channels) && values == MonthValues(analyze, yearMonth, Channels)
  {
    stats, values := [], [];
    for j := 0 to |Channels|
      invariant stats == MonthEntries(analyze, yearMonth, Channels[..j])
      invariant values == MonthValues(analyze, yearMonth, Channels[..j])
    {
      var mediaType := Channels[j];
      var analysis := analyze(yearMonth, mediaType);
      if analysis.Some? && analysis.value.validCount > 0 {
        stats := stats + [StatsOf(yearMonth, mediaType, analysis.value)];
        values := values + analysis.value.rentValues;
      }
      assert Channels[..j + 1][..j] == Channels[..j];
    }
    assert Channels[..|Channels|] == Channels;
  }

  /** The outer `forEach` over the sorted months. */
  method CollectStats(analyze: Analyzer, months: seq<string>)
    returns (monthlyMediaStats: seq<RentStatsByMonthMedia>, allRentValues: seq<int>)
    ensures monthlyMediaStats == Entries(analyze, months) && allRentValues == Values(analyze, months)
  {
    monthlyMediaStats, allRentValues := [], [];
    for i := 0 to |months|
      invariant monthlyMediaStats == Entries(analyze, months[..i])
      invariant allRentValues == Values(analyze, months[..i])
    {
      var stats, values := CollectMonth(analyze, months[i]);
      monthlyMediaStats := monthlyMediaStats + stats;
      allRentValues := allRentValues + values;
      assert months[..i + 1][..i] == months[..i];
    }
    assert months[..|months|] == months;
  }

  /** `generateRentOverview`, reading answers with `table`: the months sorted, the statistics per
    * month and channel, then the overall average and median. */
  method GenerateRentOverviewWith(h: Host, table: seq<(string, RentAnalytics.RentBand)>, data: Dataset,
                                  dateColumn: string, mediaColumn: string)
    returns (summary: RentOverviewSummary)
    ensures IsOverview(summary, ChannelAnalyzer(h, table, data, dateColumn, mediaColumn), SortedMonths(h, data, dateColumn))
  {
    var yearMonths := CollectYearMonths(h, data.rows, dateColumn);
    var sortedYearMonths := SortStrings(yearMonths);
    var monthlyMediaStats, allRentValues := CollectStats(ChannelAnalyzer(h, table, data, dateColumn, mediaColumn), sortedYearMonths);
    var overallAverage := if |allRentValues| > 0 then MediaAnalytics.Ratio(Sum(allRentValues) as real, |allRentValues| as real) else 0.0;
    var sortedAll := SortInts(allRentValues);
    var overallMedian := if |sortedAll| > 0 then sortedAll[|sortedAll| / 2] else 0;
    var period := if |sortedYearMonths| > 0 then Period(sortedYearMonths[0], sortedYearMonths[|sortedYearMonths| - 1])
      else Period("", "");
    summary := RentOverviewSummary(monthlyMediaStats, overallAverage, overallMedian, period, |allRentValues|);
  }

  /** `generateRentOverview` with the conversion table of the rent analysis. */
  method GenerateRentOverview(h: Host, data: Dataset, dateColumn: string, mediaColumn: string)
    returns (summary: RentOverviewSummary)
    ensures IsOverview(summary, ChannelAnalyzer(h, RentTable.RentConversionTable, data, dateColumn, mediaColumn),
                       SortedMonths(h, data, dateColumn))
  {
    summary := GenerateRentOverviewWith(h, RentTable.RentConversionTable, data, dateColumn, mediaColumn);
  }

  // ---------------------------------------------------------------------------------------
  // What the overview promises

  function ResponseTotal(entries: seq<RentStatsByMonthMedia>): nat
    decreases |entries|
  {
    if entries == [] then 0 else ResponseTotal(entries[..|entries| - 1]) + entries[|entries| - 1].responseCount
  }

  lemma {:induction false} ResponseTotalAppend(a: seq<RentStatsByMonthMedia>, b: seq<RentStatsByMonthMedia>)
    ensures ResponseTotal(a + b) == ResponseTotal(a) + ResponseTotal(b)
    decreases |b|
  {
    if b == [] {
      assert a + b == a;
    } else {
      assert (a + b)[..|a + b| - 1] == a + b[..|b| - 1];
      assert (a + b)[|a + b| - 1] == b[|b| - 1];
      ResponseTotalAppend(a, b[..|b| - 1]);
    }
  }

  /** Within a month, an entry exists exactly for the channels whose analysis has a valid answer,
    * and is that analysis's statistics; the entries count as many answers as there are amounts. */
  lemma {:induction false} MonthEntriesSpec(analyze: Analyzer, yearMonth: string, channels: seq<MediaType>)
    requires CountsAmounts(analyze)
    ensures var entries := MonthEntries(analyze, yearMonth, channels);
      |entries| <= |channels| &&
      ResponseTotal(entries) == |MonthValues(analyze, yearMonth, channels)| &&
      (forall k :: 0 <= k < |entries| ==>
        entries[k].yearMonth == yearMonth && entries[k].mediaType in channels && entries[k].responseCount > 0 &&
        HasEntry(analyze(yearMonth, entries[k].mediaType)) &&
        entries[k] == StatsOf(yearMonth, entries[k].mediaType, analyze(yearMonth, entries[k].mediaType).value))
    decreases |channels|
  {
    if channels != [] {
      var init := channels[..|channels| - 1];
      var mediaType := channels[|channels| - 1];
      MonthEntriesSpec(analyze, yearMonth, init);
      var a := analyze(yearMonth, mediaType);
      var earlier := MonthEntries(analyze, yearMonth, init);
      var last: seq<RentStatsByMonthMedia> := if HasEntry(a) then [StatsOf(yearMonth, mediaType, a.value)] else [];
      ResponseTotalAppend(earlier, last);
      assert forall x :: x in init ==> x in channels;
    }
  }

  /** Every channel whose analysis has a valid answer has an entry in the month. */
  lemma {:induction false} MonthEntriesComplete(analyze: Analyzer, yearMonth: string, channels: seq<MediaType>, k: int)
    requires 0 <= k < |channels| && HasEntry(analyze(yearMonth, channels[k]))
    ensures exists e :: e in MonthEntries(analyze, yearMonth, channels) && e.mediaType == channels[k]
    decreases |channels|
  {
    var init := channels[..|channels| - 1];
    var earlier := MonthEntries(analyze, yearMonth, init);
    var entries := MonthEntries(analyze, yearMonth, channels);
    if k < |init| {
      MonthEntriesComplete(analyze, yearMonth, init, k);
      var e :| e in earlier && e.mediaType == init[k];
      assert e in entries;
    } else {
      assert entries[|earlier|].mediaType == channels[k];
    }
  }

  /** Within a month the channels with an entry appear in the order of the channel list. */
  lemma {:induction false} MonthEntriesOrdered(analyze: Analyzer, yearMonth: string, channels: seq<MediaType>, i: int, j: int)
    requires CountsAmounts(analyze)
    requires 0 <= i < j < |MonthEntries(analyze, yearMonth, channels)|
    ensures exists p, q ::
      (0 <= p < q < |channels| && MonthEntries(analyze, yearMonth, channels)[i].mediaType == channels[p] &&
       MonthEntries(analyze, yearMonth, channels)[j].mediaType == channels[q])
    decreases |channels|
  {
    var init := channels[..|channels| - 1];
    var earlier := MonthEntries(analyze, yearMonth, init);
    var entries := MonthEntries(analyze, yearMonth, channels);
    MonthEntriesSpec(analyze, yearMonth, init);
    if j < |earlier| {
      MonthEntriesOrdered(analyze, yearMonth, init, i, j);
      var p, q :| 0 <= p < q < |init| && earlier[i].mediaType == init[p] && earlier[j].mediaType == init[q];
      assert entries[i] == earlier[i] && entries[j] == earlier[j];
      assert channels[p] == init[p] && channels[q] == init[q];
    } else {
      assert entries[i] == earlier[i];
      var p :| 0 <= p < |init| && earlier[i].mediaType == init[p];
      assert channels[p] == init[p];
      assert entries[j].mediaType == channels[|channels| - 1];
    }
  }

  /** The entries of all months carry a month of the list and a channel with a valid answer;
    * they count as many answers as there are amounts. */
  lemma {:induction false} EntriesSpec(analyze: Analyzer, months: seq<string>)
    requires CountsAmounts(analyze)
    ensures var entries := Entries(analyze, months);
      ResponseTotal(entries) == |Values(analyze, months)| &&
      forall k :: 0 <= k < |entries| ==>
        entries[k].yearMonth in months && entries[k].responseCount > 0 &&
        HasEntry(analyze(entries[k].yearMonth, entries[k].mediaType))
    decreases |months|
  {
    if months != [] {
      var init, month := months[..|months| - 1], months[|months| - 1];
      var earlier, latest := Entries(analyze, init), MonthEntries(analyze, month, Channels);
      EntriesSpec(analyze, init);
      MonthEntriesSpec(analyze, month, Channels);
      ResponseTotalAppend(earlier, latest);
      var entries := Entries(analyze, months);
      assert entries == earlier + latest;
      forall k | 0 <= k < |entries|
        ensures entries[k].yearMonth in months && entries[k].responseCount > 0 &&
          HasEntry(analyze(entries[k].yearMonth, entries[k].mediaType))
      {
        if k < |earlier| {
          assert entries[k] == earlier[k];
          assert earlier[k].yearMonth in init;
        } else {
          assert entries[k] == latest[k - |earlier|];
        }
      }
    }
  }

  /** With the months in ascending order, the entries are in ascending month order. */
  lemma {:induction false} EntriesAscending(analyze: Analyzer, months: seq<string>, i: int, j: int)
    requires CountsAmounts(analyze)
    requires forall p, q :: 0 <= p < q < |months| ==> StrLe(months[p], months[q])
    requires 0 <= i < j < |Entries(analyze, months)|
    ensures StrLe(Entries(analyze, months)[i].yearMonth, Entries(analyze, months)[j].yearMonth)
    decreases |months|
  {
    var init := months[..|months| - 1];
    var ym := months[|months| - 1];
    var earlier := Entries(analyze, init);
    var entries := Entries(analyze, months);
    MonthEntriesSpec(analyze, ym, Channels);
    if j < |earlier| {
      EntriesAscending(analyze, init, i, j);
      assert entries[i] == earlier[i] && entries[j] == earlier[j];
    } else if i < |earlier| {
      EntriesSpec(analyze, init);
      assert entries[i] == earlier[i];
      var p :| 0 <= p < |init| && init[p] == earlier[i].yearMonth;
      assert entries[j].yearMonth == ym;
      assert StrLe(months[p], months[|months| - 1]);
    } else {
      assert entries[i].yearMonth == ym == entries[j].yearMonth;
      StrLtIrreflexive(ym);
    }
  }

  /** What `generateRentOverview` reports: `totalResponses` is the sum of the entries' response
    * counts; every entry is for a month found in the data and a channel with a valid answer;
    * entries come in ascending month order; the period spans every entry's month; without amounts
    * the overall figures are 0. */
  lemma OverviewSpec(h: Host, data: Dataset, dateColumn: string, analyze: Analyzer, summary: RentOverviewSummary)
    requires CountsAmounts(analyze) && IsOverview(summary, analyze, SortedMonths(h, data, dateColumn))
    ensures summary.totalResponses == ResponseTotal(summary.monthlyMediaStats)
    ensures forall k :: 0 <= k < |summary.monthlyMediaStats| ==>
      var e := summary.monthlyMediaStats[k];
      e.responseCount > 0 && IsYearMonthText(e.yearMonth) && HasEntry(analyze(e.yearMonth, e.mediaType)) &&
      (exists r :: 0 <= r < |data.rows| && RowYearMonth(h, data.rows[r], dateColumn) == Some(e.yearMonth)) &&
      StrLe(summary.period.start, e.yearMonth) && StrLe(e.yearMonth, summary.period.end)
    ensures forall i, j :: 0 <= i < j < |summary.monthlyMediaStats| ==>
      StrLe(summary.monthlyMediaStats[i].yearMonth, summary.monthlyMediaStats[j].yearMonth)
    ensures summary.totalResponses == 0 ==> summary.overallMedian == 0 && summary.overallAverage == 0.0
  {
    var list := MonthList(h, data.rows, dateColumn);
    var months := SortStrings(list);
    EntriesSpec(analyze, months);
    MonthListSpec(h, data.rows, dateColumn);
    forall k | 0 <= k < |summary.monthlyMediaStats|
      ensures var e := summary.monthlyMediaStats[k];
        IsYearMonthText(e.yearMonth) &&
        (exists r :: 0 <= r < |data.rows| && RowYearMonth(h, data.rows[r], dateColumn) == Some(e.yearMonth)) &&
        StrLe(summary.period.start, e.yearMonth) && StrLe(e.yearMonth, summary.period.end)
    {
      var e := summary.monthlyMediaStats[k];
      assert e.yearMonth in multiset(months);
      assert e.yearMonth in list;
      var r :| 0 <= r < |data.rows| && RowYearMonth(h, data.rows[r], dateColumn) == Some(e.yearMonth);
      SortStringsEnds(list, e.yearMonth);
    }
    forall i, j | 0 <= i < j < |summary.monthlyMediaStats|
      ensures StrLe(summary.monthlyMediaStats[i].yearMonth, summary.monthlyMediaStats[j].yearMonth)
    {
      EntriesAscending(analyze, months, i, j);
    }
  }

  /** `getMediaDisplayName`: the channel's name is already its display name. */
  function MediaDisplayName(mediaType: MediaType): (r: string)
    ensures r == mediaType && IsMediaType(r)
  {
    mediaType
  }
}
