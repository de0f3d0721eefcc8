/**
 * Campaign cost-effectiveness (`adPerformance.ts`): the responses dated inside a campaign's
 * window, their daily breakdown, and the cost per response of one campaign or of all of them.
 */
module AdPerformance {
  import opened Wrappers
  import opened JsText
  import opened Seqs
  import opened Sorting
  import opened Spreadsheet
  import opened Tally
  import opened AdCostStorage
  import MediaAnalytics

  // ---------------------------------------------------------------------------------------
  // Responses in a window

  /** A row whose date is truthy, parseable and within `startDate <= date <= endDate`. */
  predicate IsInPeriod(h: Host, column: string, startDate: int, endDate: int, row: Row) {
    RowDate(h, row, column).Some? && startDate <= RowDate(h, row, column).value <= endDate
  }

  function InPeriod(h: Host, column: string, startDate: int, endDate: int): Row -> bool {
    row => IsInPeriod(h, column, startDate, endDate, row)
  }

  /** `countResponsesInPeriod` */
  method CountResponsesInPeriod(h: Host, data: Dataset, column: string, startDate: int, endDate: int) returns (count: nat)
    ensures count == Count(data.rows, InPeriod(h, column, startDate, endDate))
  {
    ghost var inPeriod := InPeriod(h, column, startDate, endDate);
    count := 0;
    for i := 0 to |data.rows|
      invariant count == Count(data.rows[..i], inPeriod)
    {
      CountStep(data.rows, i, inPeriod);
      var date := RowDate(h, data.rows[i], column);
      if date.None? {
        continue;
      }
      if startDate <= date.value && date.value <= endDate {
        count := count + 1;
      }
    }
    assert data.rows[..|data.rows|] == data.rows;
  }

  /** A window containing another never counts fewer responses. */
  lemma WiderWindowCountsMore(h: Host, rows: seq<Row>, column: string, start: int, end: int, wideStart: int, wideEnd: int)
    requires wideStart <= start && end <= wideEnd
    ensures Count(rows, InPeriod(h, column, start, end)) <= Count(rows, InPeriod(h, column, wideStart, wideEnd))
  {
    CountMonotonic(rows, InPeriod(h, column, start, end), InPeriod(h, column, wideStart, wideEnd));
  }

  // ---------------------------------------------------------------------------------------
  // Responses by day

  /** The `toISOString` day of every response in the window, in row order. */
  function DayKeys(h: Host, rows: seq<Row>, column: string, startDate: int, endDate: int): (r: seq<string>)
    decreases |rows|
  {
    if rows == [] then []
    else
      var last := rows[|rows| - 1];
      DayKeys(h, rows[..|rows| - 1], column, startDate, endDate) +
        (if IsInPeriod(h, column, startDate, endDate, last) then [h.isoDay(RowDate(h, last, column).value)] else [])
  }

  /** There is one day key per response in the window. */
  lemma {:induction false} DayKeysCount(h: Host, rows: seq<Row>, column: string, startDate: int, endDate: int)
    ensures |DayKeys(h, rows, column, startDate, endDate)| == Count(rows, InPeriod(h, column, startDate, endDate))
    decreases |rows|
  {
    if rows != [] {
      DayKeysCount(h, rows[..|rows| - 1], column, startDate, endDate);
    }
  }

  /** One more row of the loop in `calculateAdPerformance`: a helper for its invariant. */
  lemma DayKeysStep(h: Host, rows: seq<Row>, column: string, startDate: int, endDate: int, i: nat)
    requires i < |rows|
    ensures DayKeys(h, rows[..i + 1], column, startDate, endDate) == DayKeys(h, rows[..i], column, startDate, endDate) +
      (if IsInPeriod(h, column, startDate, endDate, rows[i]) then [h.isoDay(RowDate(h, rows[i], column).value)] else [])
  {
    assert rows[..i + 1][..i] == rows[..i];
  }

  /** The comparator `(a, b) => a.date.localeCompare(b.date)`, on `YYYY-MM-DD` keys. */
  function ByDate(): ((string, nat), (string, nat)) -> bool {
    (a: (string, nat), b: (string, nat)) => StrLe(a.0, b.0)
  }

  lemma ByDateIsTotal()
    ensures IsTotalPreorder(ByDate())
  {
    StrAscendingIsTotal();
    forall a: (string, nat), b: (string, nat)
      ensures ByDate()(a, b) || ByDate()(b, a)
    {
      assert StrAscending(a.0, b.0) || StrAscending(b.0, a.0);
    }
    forall a: (string, nat), b: (string, nat), c: (string, nat) | ByDate()(a, b) && ByDate()(b, c)
      ensures ByDate()(a, c)
    {
      assert StrAscending(a.0, b.0) && StrAscending(b.0, c.0);
    }
  }

  /** `Array.from(countMap.entries())` sorted by day. */
  function ResponseCountsOf(h: Host, rows: seq<Row>, column: string, startDate: int, endDate: int): seq<(string, nat)> {
    var keys := DayKeys(h, rows, column, startDate, endDate);
    InsertionSort(Entries(Distinct(keys), keys), ByDate())
  }

  /** `getResponseCountsByDate`: collects the day of every response in the window, counts them
    * per day in a map, and sorts the entries by day. */
  method GetResponseCountsByDate(h: Host, data: Dataset, column: string, startDate: int, endDate: int) returns (r: seq<(string, nat)>)
    ensures r == ResponseCountsOf(h, data.rows, column, startDate, endDate)
  {
    var days: seq<string> := [];
    for i := 0 to |data.rows|
      invariant days == DayKeys(h, data.rows[..i], column, startDate, endDate)
    {
      DayKeysStep(h, data.rows, column, startDate, endDate, i);
      var date := RowDate(h, data.rows[i], column);
      if date.None? {
        continue;
      }
      if startDate <= date.value && date.value <= endDate {
        days := days + [h.isoDay(date.value)];
      }
    }
    assert data.rows[..|data.rows|] == data.rows;
    var keys, counts := CountByKey(days);
    var entries := seq(|keys|, i requires 0 <= i < |keys| => (keys[i], counts[keys[i]]));
    assert entries == Entries(Distinct(days), days);
    r := InsertionSort(entries, ByDate());
  }

  /** The days come once each, in strictly ascending order, every count is positive and is the
    * number of responses of that day, and the counts add up to the responses in the window. */
  lemma ResponseCountsSpec(h: Host, rows: seq<Row>, column: string, startDate: int, endDate: int)
    ensures var r := ResponseCountsOf(h, rows, column, startDate, endDate);
      var keys := DayKeys(h, rows, column, startDate, endDate);
      (forall i :: 0 <= i < |r| ==> r[i].1 >= 1 && r[i].1 == Occurrences(keys, r[i].0)) &&
      (forall d :: d in keys ==> (d, Occurrences(keys, d)) in r) &&
      (forall i, j :: 0 <= i < j < |r| ==> StrLt(r[i].0, r[j].0)) &&
      TotalCount(r) == Count(rows, InPeriod(h, column, startDate, endDate))
  {
    var keys := DayKeys(h, rows, column, startDate, endDate);
    var r := ResponseCountsOf(h, rows, column, startDate, endDate);
    PermutedEntriesCounts(r, keys);
    PermutedEntriesComplete(r, keys);
    forall i | 0 <= i < |r|
      ensures r[i].1 >= 1
    {
      OccurringIsCounted(keys, r[i].0);
    }
    ByDateIsTotal();
    InsertionSortSorted(Entries(Distinct(keys), keys), ByDate());
    AscendingDays(r, keys);
    TotalCountPermutation(r, Entries(Distinct(keys), keys));
    CountsAddUp(keys);
    DayKeysCount(h, rows, column, startDate, endDate);
  }

  /** Entries sorted by day, with no day twice, are strictly ascending. */
  lemma AscendingDays(r: seq<(string, nat)>, keys: seq<string>)
    requires multiset(r) == multiset(Entries(Distinct(keys), keys))
    requires SortedBy(r, ByDate())
    ensures forall i, j :: 0 <= i < j < |r| ==> StrLt(r[i].0, r[j].0)
  {
    PermutedEntriesDistinct(r, keys);
    forall i, j | 0 <= i < j < |r|
      ensures StrLt(r[i].0, r[j].0)
    {
      assert ByDate()(r[i], r[j]);
    }
  }

  // ---------------------------------------------------------------------------------------
  // Cost per response

  /** `AdPerformance`; `responseCounts` holds `{ date, count }` as pairs. */
  datatype Performance = Performance(period: string, totalCost: real, responseCount: nat, costPerResponse: real,
                                     responseCounts: seq<(string, nat)>)

  /** The report over the window from `startDate` through the end of the day of `endDate`. */
  function PerformanceOf(h: Host, rows: seq<Row>, column: string, startDate: int, endDate: int, cost: real): Performance {
    var end := h.endOfDay(endDate);
    var responseCount := Count(rows, InPeriod(h, column, startDate, end));
    Performance(
      h.localeDateText(startDate) + " 〜 " + h.localeDateText(endDate),
      cost,
      responseCount,
      MediaAnalytics.Ratio(cost, responseCount as real),
      ResponseCountsOf(h, rows, column, startDate, end))
  }

  /** `calculateAdPerformance` */
  function AdPerformanceOf(h: Host, data: Dataset, column: string, ad: AdCost): Performance {
    PerformanceOf(h, data.rows, column, ad.startDate, ad.endDate, ad.cost)
  }

  /** `calculateAdPerformance`: moves the end to 23:59:59.999 of its day, then counts. */
  method CalculateAdPerformance(h: Host, data: Dataset, column: string, ad: AdCost) returns (r: Performance)
    ensures r == AdPerformanceOf(h, data, column, ad)
  {
    var adjustedEndDate := h.endOfDay(ad.endDate);
    var responseCount := CountResponsesInPeriod(h, data, column, ad.startDate, adjustedEndDate);
    var responseCounts := GetResponseCountsByDate(h, data, column, ad.startDate, adjustedEndDate);
    var costPerResponse := if responseCount > 0 then ad.cost / responseCount as real else 0.0;
    var period := h.localeDateText(ad.startDate) + " 〜 " + h.localeDateText(ad.endDate);
    r := Performance(period, ad.cost, responseCount, costPerResponse, responseCounts);
  }

  /** The report's cost is the given cost, its responses are those dated from the start through
    * the end of the end day, its cost per response is the cost over them (0 with none), and its
    * daily counts add up to them. */
  lemma PerformanceOfSpec(h: Host, rows: seq<Row>, column: string, startDate: int, endDate: int, cost: real)
    ensures var r := PerformanceOf(h, rows, column, startDate, endDate, cost);
      r.totalCost == cost &&
      r.responseCount == Count(rows, InPeriod(h, column, startDate, h.endOfDay(endDate))) &&
      MediaAnalytics.IsRatio(r.costPerResponse, cost, r.responseCount as real) &&
      TotalCount(r.responseCounts) == r.responseCount
  {
    ResponseCountsSpec(h, rows, column, startDate, h.endOfDay(endDate));
  }

  /** A campaign's report is over its own cost, and counts every response dated from its start
    * through its end instant (and the rest of that day). */
  lemma AdPerformanceSpec(h: Host, data: Dataset, column: string, ad: AdCost)
    requires ValidHost(h)
    ensures var r := AdPerformanceOf(h, data, column, ad);
      r.totalCost == ad.cost && MediaAnalytics.IsRatio(r.costPerResponse, ad.cost, r.responseCount as real) &&
      Count(data.rows, InPeriod(h, column, ad.startDate, ad.endDate)) <= r.responseCount
  {
    PerformanceOfSpec(h, data.rows, column, ad.startDate, ad.endDate, ad.cost);
    WiderWindowCountsMore(h, data.rows, column, ad.startDate, ad.endDate, ad.startDate, h.endOfDay(ad.endDate));
  }

  // ---------------------------------------------------------------------------------------
  // All campaigns together

  /** `adCosts.flatMap(cost => [cost.startDate, cost.endDate])` as timestamps. */
  function AllDates(ads: seq<AdCost>): (r: seq<int>)
    ensures |r| == 2 * |ads|
    ensures forall i :: 0 <= i < |ads| ==> r[2 * i] == ads[i].startDate && r[2 * i + 1] == ads[i].endDate
    decreases |ads|
  {
    if ads == [] then []
    else AllDates(ads[..|ads| - 1]) + [ads[|ads| - 1].startDate, ads[|ads| - 1].endDate]
  }

  /** `adCosts.reduce((sum, cost) => sum + cost.cost, 0)` */
  function TotalCost(ads: seq<AdCost>): real
    decreases |ads|
  {
    if ads == [] then 0.0 else TotalCost(ads[..|ads| - 1]) + ads[|ads| - 1].cost
  }

  /** `calculateTotalAdPerformance`: `null` without campaigns; otherwise one report over the
    * window from the earliest to the end of the day of the latest date, for the summed cost. */
  function TotalAdPerformanceOf(h: Host, data: Dataset, column: string, ads: seq<AdCost>): Option<Performance> {
    if |ads| == 0 then None
    else
      var dates := AllDates(ads);
      Some(PerformanceOf(h, data.rows, column, Min(dates), Max(dates), TotalCost(ads)))
  }

  method CalculateTotalAdPerformance(h: Host, data: Dataset, column: string, ads: seq<AdCost>) returns (r: Option<Performance>)
    ensures r == TotalAdPerformanceOf(h, data, column, ads)
  {
    if |ads| == 0 {
      return None;
    }
    var allDates := AllDates(ads);
    var minDate := Min(allDates);
    var maxDate := Max(allDates);
    var adjustedMaxDate := h.endOfDay(maxDate);
    var totalCost := TotalCost(ads);
    var responseCount := CountResponsesInPeriod(h, data, column, minDate, adjustedMaxDate);
    var responseCounts := GetResponseCountsByDate(h, data, column, minDate, adjustedMaxDate);
    var costPerResponse := if responseCount > 0 then totalCost / responseCount as real else 0.0;
    var period := h.localeDateText(minDate) + " 〜 " + h.localeDateText(maxDate);
    r := Some(Performance(period, totalCost, responseCount, costPerResponse, responseCounts));
  }

  /** `setHours(23, 59, 59, 999)` on a later day never gives an earlier instant. */
  ghost predicate EndOfDayMonotonic(h: Host) {
    forall t, u :: t <= u ==> h.endOfDay(t) <= h.endOfDay(u)
  }

  /** The combined report exists exactly when there are campaigns; its cost is the sum of their
    * costs, its cost per response is that sum over its responses, and it counts at least the
    * responses of each single campaign, whose window it contains. */
  lemma TotalAdPerformanceSpec(h: Host, data: Dataset, column: string, ads: seq<AdCost>)
    requires EndOfDayMonotonic(h)
    ensures TotalAdPerformanceOf(h, data, column, ads).None? <==> ads == []
    ensures TotalAdPerformanceOf(h, data, column, ads).Some? ==>
      var r := TotalAdPerformanceOf(h, data, column, ads).value;
      r.totalCost == TotalCost(ads) && MediaAnalytics.IsRatio(r.costPerResponse, TotalCost(ads), r.responseCount as real) &&
      forall k :: 0 <= k < |ads| ==> AdPerformanceOf(h, data, column, ads[k]).responseCount <= r.responseCount
  {
    if ads != [] {
      var dates := AllDates(ads);
      PerformanceOfSpec(h, data.rows, column, Min(dates), Max(dates), TotalCost(ads));
      forall k | 0 <= k < |ads|
        ensures AdPerformanceOf(h, data, column, ads[k]).responseCount <= Count(data.rows, InPeriod(h, column, Min(dates), h.endOfDay(Max(dates))))
      {
        CampaignInsideTotal(h, data.rows, column, ads, k);
      }
    }
  }

  /** Each campaign's window lies inside the combined window. */
  lemma CampaignInsideTotal(h: Host, rows: seq<Row>, column: string, ads: seq<AdCost>, k: nat)
    requires EndOfDayMonotonic(h) && k < |ads|
    ensures var dates := AllDates(ads);
      Count(rows, InPeriod(h, column, ads[k].startDate, h.endOfDay(ads[k].endDate))) <=
      Count(rows, InPeriod(h, column, Min(dates), h.endOfDay(Max(dates))))
  {
    var dates := AllDates(ads);
    assert dates[2 * k] == ads[k].startDate && dates[2 * k + 1] == ads[k].endDate;
    assert h.endOfDay(ads[k].endDate) <= h.endOfDay(Max(dates));
    WiderWindowCountsMore(h, rows, column, ads[k].startDate, h.endOfDay(ads[k].endDate), Min(dates), h.endOfDay(Max(dates)));
  }
}
