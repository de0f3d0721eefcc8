/**
 * The detailed analysis of one channel over one month or over all time: at which hour of the
 * day its responses arrive, which pet answers they give, whether they keep dogs, cats or both,
 * and the desired-rent analysis of the same channel and period.
 */
module DetailedAnalytics {
  import opened Wrappers
  import opened JsText
  import opened Seqs
  import opened Sorting
  import opened Spreadsheet
  import opened MediaTypes
  import opened Tally
  import MediaAnalytics
  import RentAnalytics
  import RentTable

  /** The period that selects every date. */
  const AllTime: string := "all-time"

  // ---------------------------------------------------------------------------------------
  // The responses analysed

  /** A response of the channel in the period: its date is a non-empty string whose date part
    * starts with `yearMonth` (any date for `all-time`), and its channel normalises to `mediaType`. */
  predicate IsTarget(h: Host, row: Row, mediaType: MediaType, yearMonth: string, dateColumn: string, mediaColumn: string) {
    StringValue(row, dateColumn).Some? &&
    (yearMonth == AllTime || StartsWith(DatePart(StringValue(row, dateColumn).value), yearMonth)) &&
    MediaAnalytics.RowChannel(row, h, mediaColumn) == Some(mediaType)
  }

  function Target(h: Host, mediaType: MediaType, yearMonth: string, dateColumn: string, mediaColumn: string): Row -> bool {
    row => IsTarget(h, row, mediaType, yearMonth, dateColumn, mediaColumn)
  }

  /** `csvData.rows.filter(...)`: the responses analysed, in their order in the sheet. */
  function TargetRows(h: Host, rows: seq<Row>, mediaType: MediaType, yearMonth: string, dateColumn: string, mediaColumn: string)
    : (r: seq<Row>)
    ensures |r| == Count(rows, Target(h, mediaType, yearMonth, dateColumn, mediaColumn))
    ensures IsSubsequence(r, rows)
  {
    var select := Target(h, mediaType, yearMonth, dateColumn, mediaColumn);
    CountIsFilterLength(rows, select);
    FilterIsSubsequence(rows, select);
    Filter(rows, select)
  }

  /** A row is analysed exactly when it is a response of the channel in the period. */
  lemma TargetRowsMembers(h: Host, rows: seq<Row>, mediaType: MediaType, yearMonth: string, dateColumn: string, mediaColumn: string)
    ensures forall row :: row in TargetRows(h, rows, mediaType, yearMonth, dateColumn, mediaColumn) <==>
      row in rows && IsTarget(h, row, mediaType, yearMonth, dateColumn, mediaColumn)
  {
    var select := Target(h, mediaType, yearMonth, dateColumn, mediaColumn);
    forall row | row in rows && IsTarget(h, row, mediaType, yearMonth, dateColumn, mediaColumn) {
      FilterKeeps(rows, select, row);
    }
  }

  /** For a month, the analysis covers exactly the leads the monthly report counts for the channel. */
  lemma MonthTargetsAreMonthLeads(h: Host, rows: seq<Row>, mediaType: MediaType, yearMonth: string, dateColumn: string, mediaColumn: string)
    requires yearMonth != AllTime
    ensures Count(rows, Target(h, mediaType, yearMonth, dateColumn, mediaColumn)) ==
      Count(rows, MediaAnalytics.LeadInMonth(h, mediaType, yearMonth, dateColumn, mediaColumn))
  {
    CountCongruent(rows, Target(h, mediaType, yearMonth, dateColumn, mediaColumn),
      MediaAnalytics.LeadInMonth(h, mediaType, yearMonth, dateColumn, mediaColumn));
  }

  /** Over all time, the analysis still needs a date, so it covers no more responses than the
    * all-time report counts for the channel, which needs none. */
  lemma AllTimeTargetsAmongChannelLeads(h: Host, rows: seq<Row>, mediaType: MediaType, dateColumn: string, mediaColumn: string)
    ensures Count(rows, Target(h, mediaType, AllTime, dateColumn, mediaColumn)) <=
      Count(rows, MediaAnalytics.LeadOfChannel(h, mediaType, mediaColumn))
  {
    CountMonotonic(rows, Target(h, mediaType, AllTime, dateColumn, mediaColumn), MediaAnalytics.LeadOfChannel(h, mediaType, mediaColumn));
  }

  // ---------------------------------------------------------------------------------------
  // Hour of the day

  /** The hour on the 24-hour clock of `hour` read with the suffix `period`. */
  function To24Hour(hour: int, period: Option<string>): int {
    if period == Some("pm") && hour != 12 then hour + 12
    else if period == Some("am") && hour == 12 then 0
    else hour
  }

  /** On the 12-hour clock, `12 am` is midnight and `12 pm` noon: the morning hours 1 to 12 land on
    * 0 to 11 and the afternoon ones on 12 to 23; without a suffix the hour is kept. */
  lemma TwelveHourClock(hour: int)
    ensures 1 <= hour <= 12 ==> To24Hour(hour, Some("am")) == hour % 12 && To24Hour(hour, Some("pm")) == hour % 12 + 12
    ensures To24Hour(hour, None) == hour
  {
  }

  /** The hour of a response, from a `"2024-11-02 07:17:22 pm"` timestamp: the second
    * space-separated piece is the time, the third the suffix. No hour when the date is not a
    * non-empty string, the time piece is missing or empty, the text before its first `:` is not a
    * number, or the converted hour is outside 0 .. 23. */
  function HourOf(row: Row, dateColumn: string): (r: Option<int>)
    ensures r.Some? ==> 0 <= r.value < 24
    ensures StringValue(row, dateColumn).None? ==> r.None?
  {
    match StringValue(row, dateColumn)
    case None => None
    case Some(dateValue) =>
      var timePart := Piece(dateValue, ' ', 1);
      var period := Piece(dateValue, ' ', 2);
      if timePart.None? || timePart.value == "" then None
      else match ParseInt(Split(timePart.value, ':')[0])
        case None => None
        case Some(hour) =>
          var hour24 := To24Hour(hour, period);
          if 0 <= hour24 < 24 then Some(hour24) else None
  }

  /** A timestamp `date hh:rest period` is read at hour `hh` converted with `period`. */
  lemma HourOfTimestamp(row: Row, dateColumn: string, date: string, hh: string, rest: string, period: string)
    requires dateColumn in row && row[dateColumn] == Str(date + " " + hh + ":" + rest + " " + period)
    requires ' ' !in date && ' ' !in rest && ' ' !in period
    requires hh != "" && AllDigits(hh)
    ensures HourOf(row, dateColumn) ==
      var hour := To24Hour(DigitsValue(hh), Some(period)); if 0 <= hour < 24 then Some(hour) else None
  {
    var time := hh + ":" + rest;
    assert ' ' !in hh by {
      forall k | 0 <= k < |hh| ensures hh[k] != ' ' {
        assert IsDigit(hh[k]);
      }
    }
    assert ' ' !in time;
    assert ':' !in hh by {
      forall k | 0 <= k < |hh| ensures hh[k] != ':' {
        assert IsDigit(hh[k]);
      }
    }
    var value := date + " " + hh + ":" + rest + " " + period;
    assert value == date + [' '] + (time + [' '] + period);
    SplitAtFirst(date, ' ', time + [' '] + period);
    SplitAtFirst(time, ' ', period);
    SplitWithoutSeparator(period, ' ');
    assert Split(value, ' ') == [date, time, period];
    assert time == hh + [':'] + rest;
    SplitAtFirst(hh, ':', rest);
    ParseIntOfDigits(hh);
  }

  /** The timestamp of the sample answer, `"2024-11-02 07:17:22 pm"`, is read at 19 o'clock. */
  lemma EveningSample(dateColumn: string)
    ensures HourOf(map[dateColumn := Str("2024-11-02 07:17:22 pm")], dateColumn) == Some(19)
  {
    var row := map[dateColumn := Str("2024-11-02 07:17:22 pm")];
    assert "2024-11-02 07:17:22 pm" == "2024-11-02" + " " + "07" + ":" + "17:22" + " " + "pm";
    assert AllDigits("07") && DigitsValue("07") == 7;
    HourOfTimestamp(row, dateColumn, "2024-11-02", "07", "17:22", "pm");
  }

  /** `12:05:00 am` is read at midnight. */
  lemma MidnightSample(dateColumn: string)
    ensures HourOf(map[dateColumn := Str("2024-11-02 12:05:00 am")], dateColumn) == Some(0)
  {
    var row := map[dateColumn := Str("2024-11-02 12:05:00 am")];
    assert "2024-11-02 12:05:00 am" == "2024-11-02" + " " + "12" + ":" + "05:00" + " " + "am";
    assert AllDigits("12") && DigitsValue("12") == 12;
    HourOfTimestamp(row, dateColumn, "2024-11-02", "12", "05:00", "am");
  }

  /** `HourlyDistribution` */
  datatype HourlyDistribution = HourlyDistribution(hour: int, count: nat)

  function HourKey(dateColumn: string): Row -> Option<int> {
    row => HourOf(row, dateColumn)
  }

  /** The responses of each hour, hours 0 to 23 in ascending order as `Object.entries` lists
    * integer keys. */
  function HourlyDistributionOf(rows: seq<Row>, dateColumn: string): (r: seq<HourlyDistribution>)
    ensures |r| == 24 && forall k :: 0 <= k < 24 ==> r[k].hour == k
  {
    seq(24, k requires 0 <= k < 24 => HourlyDistribution(k, Count(rows, KeyIs(HourKey(dateColumn), k))))
  }

  /** `calculateHourlyDistribution`: sets the 24 hours to 0, then counts each response at its
    * hour. */
  method CalculateHourlyDistribution(rows: seq<Row>, dateColumn: string) returns (distribution: seq<HourlyDistribution>)
    ensures distribution == HourlyDistributionOf(rows, dateColumn)
  {
    var hourCounts: seq<nat> := [];
    for hour := 0 to 24
      invariant hourCounts == seq(hour, _ => 0)
    {
      hourCounts := hourCounts + [0];
    }
    for i := 0 to |rows|
      invariant |hourCounts| == 24
      invariant forall k :: 0 <= k < 24 ==> hourCounts[k] == Count(rows[..i], KeyIs(HourKey(dateColumn), k))
    {
      var row := rows[i];
      forall k | 0 <= k < 24
        ensures Count(rows[..i + 1], KeyIs(HourKey(dateColumn), k)) ==
          Count(rows[..i], KeyIs(HourKey(dateColumn), k)) + if HourOf(row, dateColumn) == Some(k) then 1 else 0
      {
        CountStep(rows, i, KeyIs(HourKey(dateColumn), k));
      }
      var dateValue := StringValue(row, dateColumn);
      if dateValue.Some? {
        var timePart := Piece(dateValue.value, ' ', 1);
        var period := Piece(dateValue.value, ' ', 2);
        if timePart.Some? && timePart.value != "" {
          var parsed := ParseInt(Split(timePart.value, ':')[0]);
          if parsed.Some? {
            var hour := parsed.value;
            if period == Some("pm") && hour != 12 {
              hour := hour + 12;
            } else if period == Some("am") && hour == 12 {
              hour := 0;
            }
            if 0 <= hour < 24 {
              hourCounts := hourCounts[hour := hourCounts[hour] + 1];
            }
          }
        }
      }
    }
    assert rows[..|rows|] == rows;
    distribution := seq(24, k requires 0 <= k < 24 => HourlyDistribution(k, hourCounts[k]));
  }

  /** The sum of the counts of a distribution. */
  function HourTotal(dist: seq<HourlyDistribution>): nat
    decreases |dist|
  {
    if dist == [] then 0 else HourTotal(dist[..|dist| - 1]) + dist[|dist| - 1].count
  }

  function HasHour(dateColumn: string): Row -> bool {
    row => HourOf(row, dateColumn).Some?
  }

  /** Every response with an hour is counted at exactly one hour, the others at none. */
  lemma HourlyTotal(rows: seq<Row>, dateColumn: string)
    ensures HourTotal(HourlyDistributionOf(rows, dateColumn)) == Count(rows, HasHour(dateColumn)) <= |rows|
  {
    var hours := seq(24, k requires 0 <= k < 24 => k);
    var dist := HourlyDistributionOf(rows, dateColumn);
    HourSumIsKeyCounts(rows, dateColumn, 24);
    assert dist[..24] == dist;
    SumOfKeyCountsIsCount(rows, HourKey(dateColumn), hours);
    forall row | row in rows
      ensures KeyIn(HourKey(dateColumn), hours)(row) == HasHour(dateColumn)(row)
    {
      if HourOf(row, dateColumn).Some? {
        assert hours[HourOf(row, dateColumn).value] == HourOf(row, dateColumn).value;
      }
    }
    CountCongruent(rows, KeyIn(HourKey(dateColumn), hours), HasHour(dateColumn));
    CountBound(rows, HasHour(dateColumn));
  }

  lemma {:induction false} HourSumIsKeyCounts(rows: seq<Row>, dateColumn: string, n: nat)
    requires n <= 24
    ensures HourTotal(HourlyDistributionOf(rows, dateColumn)[..n]) ==
      SumOfKeyCounts(rows, HourKey(dateColumn), seq(n, k requires 0 <= k < n => k))
    decreases n
  {
    if n > 0 {
      var dist := HourlyDistributionOf(rows, dateColumn);
      HourSumIsKeyCounts(rows, dateColumn, n - 1);
      assert dist[..n][..n - 1] == dist[..n - 1];
      assert seq(n, k requires 0 <= k < n => k)[..n - 1] == seq(n - 1, k requires 0 <= k < n - 1 => k);
    }
  }

  // ---------------------------------------------------------------------------------------
  // Peak hour

  /** Entry `i` has the greatest count, a positive one, and every earlier entry a smaller count. */
  predicate IsEarliestMaximum(dist: seq<HourlyDistribution>, i: int) {
    0 <= i < |dist| && dist[i].count > 0 &&
    (forall j :: 0 <= j < |dist| ==> dist[j].count <= dist[i].count) &&
    (forall j :: 0 <= j < i ==> dist[j].count < dist[i].count)
  }

  /** The hour `findPeakHour` reports: that of the first entry with the greatest count, or 0
    * when every count is 0. */
  ghost predicate IsPeakHour(dist: seq<HourlyDistribution>, peak: int) {
    if forall i :: 0 <= i < |dist| ==> dist[i].count == 0 then peak == 0
    else exists i :: IsEarliestMaximum(dist, i) && dist[i].hour == peak
  }

  /** `findPeakHour`: keeps the greatest count seen so far and replaces it only by a strictly
    * greater one. */
  method FindPeakHour(distribution: seq<HourlyDistribution>) returns (peakHour: int)
    ensures IsPeakHour(distribution, peakHour)
  {
    var maxCount: nat := 0;
    peakHour := 0;
    ghost var peakIndex := 0;
    for i := 0 to |distribution|
      invariant forall j :: 0 <= j < i ==> distribution[j].count <= maxCount
      invariant maxCount == 0 ==> peakHour == 0
      invariant maxCount > 0 ==> (0 <= peakIndex < i && distribution[peakIndex].hour == peakHour &&
        distribution[peakIndex].count == maxCount && forall j :: 0 <= j < peakIndex ==> distribution[j].count < maxCount)
    {
      var entry := distribution[i];
      if entry.count > maxCount {
        maxCount := entry.count;
        peakHour := entry.hour;
        peakIndex := i;
      }
    }
    if maxCount > 0 {
      assert IsEarliestMaximum(distribution, peakIndex);
    }
  }

  /** A distribution has one peak hour. */
  lemma PeakHourUnique(dist: seq<HourlyDistribution>, a: int, b: int)
    requires IsPeakHour(dist, a) && IsPeakHour(dist, b)
    ensures a == b
  {
    if !forall i :: 0 <= i < |dist| ==> dist[i].count == 0 {
      var i :| IsEarliestMaximum(dist, i) && dist[i].hour == a;
      var j :| IsEarliestMaximum(dist, j) && dist[j].hour == b;
      if i < j {
        assert false;
      } else if j < i {
        assert false;
      }
    }
  }

  /** Over the 24 hours of a day, the peak is an hour of the day with the greatest count, and every
    * earlier hour has fewer responses. */
  lemma PeakHourOfDay(dist: seq<HourlyDistribution>, peak: int)
    requires |dist| == 24 && forall k :: 0 <= k < 24 ==> dist[k].hour == k
    requires IsPeakHour(dist, peak)
    ensures 0 <= peak < 24
    ensures forall k :: 0 <= k < 24 ==> dist[k].count <= dist[peak].count
    ensures forall k :: 0 <= k < peak ==> dist[k].count < dist[peak].count
  {
    if !forall i :: 0 <= i < |dist| ==> dist[i].count == 0 {
      var i :| IsEarliestMaximum(dist, i) && dist[i].hour == peak;
      assert i == peak;
    }
  }

  // ---------------------------------------------------------------------------------------
  // Pet answers

  /** The key of an empty pet answer. */
  const UnknownPetType: string := "(不明)"

  /** `petValue ? String(petValue).trim() : '(不明)'` */
  function PetTypeOf(h: Host, row: Row, petColumn: string): (r: string)
    ensures !Truthy(row, petColumn) ==> r == UnknownPetType
    ensures Truthy(row, petColumn) ==> r == [] || (!IsSpace(r[0]) && !IsSpace(r[|r| - 1]))
  {
    if Truthy(row, petColumn) then
      TrimSpec(CellText(h, row[petColumn]));
      Trim(CellText(h, row[petColumn]))
    else UnknownPetType
  }

  function PetTypeKey(h: Host, petColumn: string): Row -> string {
    row => PetTypeOf(h, row, petColumn)
  }

  /** The pet answer of every response, in order. */
  function PetTypes(h: Host, rows: seq<Row>, petColumn: string): (r: seq<string>)
    ensures |r| == |rows| && forall i :: 0 <= i < |rows| ==> r[i] == PetTypeOf(h, rows[i], petColumn)
  {
    MapSeq(rows, PetTypeKey(h, petColumn))
  }

  /** `PetTypeDistribution` */
  datatype PetTypeDistribution = PetTypeDistribution(petType: string, count: nat, percentage: real)

  /** `{petType, count, percentage: total > 0 ? (count / total) * 100 : 0}` */
  function WithShare(total: nat): ((string, nat)) -> PetTypeDistribution {
    (e: (string, nat)) => PetTypeDistribution(e.0, e.1, MediaAnalytics.Percent(e.1 as real, total as real))
  }

  /** The comparator `(a, b) => b.count - a.count`. */
  function PetByCount(): (PetTypeDistribution, PetTypeDistribution) -> bool {
    (a: PetTypeDistribution, b: PetTypeDistribution) => a.count >= b.count
  }

  /** The keys of the count object in the order `Object.entries` lists them: the answers that
    * are array indices ("1", "2", …) in ascending numeric order, then the others as first given. */
  function PetTypeOrder(h: Host, rows: seq<Row>, petColumn: string): seq<string> {
    ObjectKeyOrder(Distinct(PetTypes(h, rows, petColumn)))
  }

  /** What `calculatePetTypeDistribution` returns: the object's entries with their shares, sorted
    * by descending count. */
  function PetTypeDistributionOf(h: Host, rows: seq<Row>, petColumn: string): seq<PetTypeDistribution> {
    DistributionOfTypes(PetTypes(h, rows, petColumn), |rows|)
  }

  /** The sorted entries, with their shares of `total`, of the object that counts `types`. */
  function DistributionOfTypes(types: seq<string>, total: nat): seq<PetTypeDistribution> {
    InsertionSort(MapSeq(Entries(ObjectKeyOrder(Distinct(types)), types), WithShare(total)), PetByCount())
  }

  /** `Object.entries(petTypeCounts).map(...)`: each key of `order` with its count in the map
    * and its share of `total`. */
  function SharesFromCounts(order: seq<string>, counts: map<string, nat>, total: nat): (r: seq<PetTypeDistribution>)
    requires forall k :: k in order ==> k in counts
    ensures |r| == |order|
  {
    seq(|order|, i requires 0 <= i < |order| =>
      PetTypeDistribution(order[i], counts[order[i]], MediaAnalytics.Percent(counts[order[i]] as real, total as real)))
  }

  /** Read from a map that holds the occurrence counts, the shares are those of the counted
    * entries. */
  lemma SharesFromCountsMatch(order: seq<string>, s: seq<string>, counts: map<string, nat>, total: nat)
    requires forall k :: k in order ==> k in counts && counts[k] == Occurrences(s, k)
    ensures SharesFromCounts(order, counts, total) == MapSeq(Entries(order, s), WithShare(total))
  {
  }

  /** `calculatePetTypeDistribution`: fills the count map answer by answer, attaches the shares and
    * sorts. */
  method CalculatePetTypeDistribution(h: Host, rows: seq<Row>, petColumn: string) returns (distribution: seq<PetTypeDistribution>)
    ensures distribution == PetTypeDistributionOf(h, rows, petColumn)
  {
    var petTypes: seq<string> := [];
    for i := 0 to |rows|
      invariant petTypes == PetTypes(h, rows[..i], petColumn)
    {
      var petType := if Truthy(rows[i], petColumn) then Trim(CellText(h, rows[i][petColumn])) else UnknownPetType;
      petTypes := petTypes + [petType];
    }
    assert rows[..|rows|] == rows;
    var keys, petTypeCounts := CountByKey(petTypes);
    var order := ObjectKeyOrder(keys);
    ObjectKeyOrderSpec(keys);
    assert forall k :: k in order ==> k in multiset(keys);
    var entries := SharesFromCounts(order, petTypeCounts, |rows|);
    SharesFromCountsMatch(order, petTypes, petTypeCounts, |rows|);
    distribution := InsertionSort(entries, PetByCount());
  }

  /** Sorting the entries with their shares is sorting the (answer, count) pairs and then
    * attaching the shares. */
  lemma PetTypesFromCounts(h: Host, rows: seq<Row>, petColumn: string)
    ensures PetTypeDistributionOf(h, rows, petColumn) ==
      MapSeq(SortByCount(Entries(PetTypeOrder(h, rows, petColumn), PetTypes(h, rows, petColumn))), WithShare(|rows|))
  {
    var types := PetTypes(h, rows, petColumn);
    InsertionSortMap(Entries(PetTypeOrder(h, rows, petColumn), types), ByCountDescending<string>(), WithShare(|rows|), PetByCount());
  }

  /** The sum of the counts of a pet distribution. */
  function PetTotal(dist: seq<PetTypeDistribution>): nat
    decreases |dist|
  {
    if dist == [] then 0 else PetTotal(dist[..|dist| - 1]) + dist[|dist| - 1].count
  }

  lemma {:induction false} PetTotalOfShares(counts: seq<(string, nat)>, total: nat)
    ensures PetTotal(MapSeq(counts, WithShare(total))) == TotalCount(counts)
    decreases |counts|
  {
    if counts != [] {
      PetTotalOfShares(counts[..|counts| - 1], total);
      assert MapSeq(counts, WithShare(total))[..|counts| - 1] == MapSeq(counts[..|counts| - 1], WithShare(total));
    }
  }

  /** The answers are sorted by descending count and come once each; every answer given appears,
    * with the number of responses that gave it and its share of all responses in percent; the
    * counts add up to the number of responses. */
  lemma PetTypeDistributionSpec(h: Host, rows: seq<Row>, petColumn: string)
    ensures var r := PetTypeDistributionOf(h, rows, petColumn); var types := PetTypes(h, rows, petColumn);
      (forall i, j :: 0 <= i < j < |r| ==> r[i].count >= r[j].count && r[i].petType != r[j].petType) &&
      (forall i :: 0 <= i < |r| ==> (r[i].petType in types && r[i].count == Occurrences(types, r[i].petType) >= 1 &&
        MediaAnalytics.IsPercent(r[i].percentage, r[i].count as real, |rows| as real))) &&
      (forall k :: 0 <= k < |rows| ==> exists i :: 0 <= i < |r| && r[i].petType == PetTypeOf(h, rows[k], petColumn)) &&
      PetTotal(r) == |rows|
  {
    var types := PetTypes(h, rows, petColumn);
    var order := PetTypeOrder(h, rows, petColumn);
    var counts := SortByCount(Entries(order, types));
    PetTypesFromCounts(h, rows, petColumn);
    ObjectKeyOrderSpec(Distinct(types));
    SortedEntriesSpec(order, types);
    PetTotalOfShares(counts, |rows|);
    SharesOfCounts(PetTypeDistributionOf(h, rows, petColumn), counts, types, |rows|);
    forall k | 0 <= k < |rows|
      ensures exists i :: 0 <= i < |counts| && counts[i].0 == types[k]
    {
      assert (types[k], Occurrences(types, types[k])) in counts;
    }
  }

  /** The shares attached to sorted, counted answers keep their order and counts. */
  lemma SharesOfCounts(r: seq<PetTypeDistribution>, counts: seq<(string, nat)>, types: seq<string>, total: nat)
    requires r == MapSeq(counts, WithShare(total))
    requires forall i, j :: 0 <= i < j < |counts| ==> counts[i].1 >= counts[j].1 && counts[i].0 != counts[j].0
    requires forall i :: 0 <= i < |counts| ==> counts[i].0 in types && counts[i].1 == Occurrences(types, counts[i].0)
    ensures forall i, j :: 0 <= i < j < |r| ==> r[i].count >= r[j].count && r[i].petType != r[j].petType
    ensures forall i :: 0 <= i < |r| ==> (r[i].petType == counts[i].0 && r[i].petType in types &&
      r[i].count == Occurrences(types, r[i].petType) >= 1 && MediaAnalytics.IsPercent(r[i].percentage, r[i].count as real, total as real))
  {
    forall i | 0 <= i < |r|
      ensures r[i].count >= 1
    {
      OccurringIsCounted(types, counts[i].0);
    }
  }

  /** Answers with the same count keep the order of the count object's keys: answers that are
    * array indices first, in ascending numeric order, then the others in the order first given. */
  lemma PetTypeTiesInKeyOrder(h: Host, rows: seq<Row>, petColumn: string)
    ensures var r := PetTypeDistributionOf(h, rows, petColumn);
      forall i, j :: 0 <= i < j < |r| && r[i].count == r[j].count ==>
        Precedes(PetTypeOrder(h, rows, petColumn), r[i].petType, r[j].petType)
  {
    var types := PetTypes(h, rows, petColumn);
    var order := PetTypeOrder(h, rows, petColumn);
    var e := Entries(order, types);
    var sorted := SortByCount(e);
    PetTypesFromCounts(h, rows, petColumn);
    InsertionSortStable(e, ByCountDescending<string>());
    var r := PetTypeDistributionOf(h, rows, petColumn);
    forall i, j | 0 <= i < j < |r| && r[i].count == r[j].count
      ensures Precedes(order, r[i].petType, r[j].petType)
    {
      assert r[i].petType == sorted[i].0 && r[i].count == sorted[i].1;
      assert r[j].petType == sorted[j].0 && r[j].count == sorted[j].1;
      assert ByCountDescending<string>()(sorted[j], sorted[i]);
      var p, q :| 0 <= p < q < |e| && e[p] == sorted[i] && e[q] == sorted[j];
      assert order[p] == sorted[i].0 && order[q] == sorted[j].0;
    }
  }

  /** Two responses answering "2" and then "1" pets: the object lists the key "1" first, so
    * the tie comes out as "1", "2". */
  lemma IndexAnswersAscending(h: Host, petColumn: string)
    ensures var rows := [map[petColumn := Str("2")], map[petColumn := Str("1")]];
      var r := PetTypeDistributionOf(h, rows, petColumn);
      |r| == 2 && r[0].petType == "1" && r[1].petType == "2" && r[0].count == r[1].count == 1
  {
    TwoAnswers(h, petColumn);
    ObjectKeyOrderTwo();
    KeyOrderPair("2", "1");
  }

  lemma TwoAnswers(h: Host, petColumn: string)
    ensures PetTypes(h, [map[petColumn := Str("2")], map[petColumn := Str("1")]], petColumn) == ["2", "1"]
  {
    TrimIdentity("2");
    TrimIdentity("1");
  }

  /** Two responses answering `a` and then `b`, where the count object lists the key `b` first
    * (as it does when both are array indices and `b` is the smaller, see
    * `Tally.ObjectKeyOrderPair`): each is counted once and `b` comes first. */
  lemma KeyOrderPair(a: string, b: string)
    requires a != b && ObjectKeyOrder([a, b]) == [b, a]
    ensures var r := DistributionOfTypes([a, b], 2);
      |r| == 2 && r[0].petType == b && r[1].petType == a && r[0].count == r[1].count == 1
  {
    var e: seq<(string, nat)> := [(b, 1), (a, 1)];
    KeyOrderPairEntries(a, b);
    SharesOfSortedEntries([a, b], 2, e);
  }

  /** When the counted entries already run from the largest count down, the result is those
    * entries with their shares, in the same order. */
  lemma SharesOfSortedEntries(types: seq<string>, total: nat, e: seq<(string, nat)>)
    requires Entries(ObjectKeyOrder(Distinct(types)), types) == e
    requires SortedBy(e, ByCountDescending())
    ensures DistributionOfTypes(types, total) == MapSeq(e, WithShare(total))
  {
    InsertionSortMap(e, ByCountDescending<string>(), WithShare(total), PetByCount());
    InsertionSortOfSorted(e, ByCountDescending<string>());
  }

  lemma KeyOrderPairEntries(a: string, b: string)
    requires a != b && ObjectKeyOrder([a, b]) == [b, a]
    ensures Entries(ObjectKeyOrder(Distinct([a, b])), [a, b]) == [(b, 1), (a, 1)]
  {
    DistinctPair(a, b);
    OnceEach(a, b);
  }

  // ---------------------------------------------------------------------------------------
  // Dogs and cats

  /** The four groups of `calculatePetCategory`. */
  datatype PetCategory = Dog | Cat | DogAndCat | Unknown

  /** The group of a response: unknown for a falsy answer, otherwise by whether the lower-cased
    * answer contains `犬` (dog) and `猫` (cat). */
  function CategoryOf(h: Host, row: Row, petColumn: string): PetCategory {
    if !Truthy(row, petColumn) then Unknown
    else
      var petStr := ToLower(CellText(h, row[petColumn]));
      var hasDog := Includes(petStr, "犬");
      var hasCat := Includes(petStr, "猫");
      if hasDog && hasCat then DogAndCat
      else if hasDog then Dog
      else if hasCat then Cat
      else Unknown
  }

  /** The group follows from the answer as written (an absent or falsy answer reads as `''`):
    * both kanji give both animals, one of them that animal, neither unknown. */
  lemma CategoryOfAnswer(h: Host, row: Row, petColumn: string)
    ensures var text := TextOrEmpty(h, row, petColumn);
      var dog := Includes(text, "犬"); var cat := Includes(text, "猫");
      (CategoryOf(h, row, petColumn) == DogAndCat <==> dog && cat) &&
      (CategoryOf(h, row, petColumn) == Dog <==> dog && !cat) &&
      (CategoryOf(h, row, petColumn) == Cat <==> !dog && cat) &&
      (CategoryOf(h, row, petColumn) == Unknown <==> !dog && !cat)
  {
    var text := TextOrEmpty(h, row, petColumn);
    if Truthy(row, petColumn) {
      LowerKeepsOtherChars(text, '犬');
      LowerKeepsOtherChars(text, '猫');
    } else {
      assert !Includes(text, "犬") && !Includes(text, "猫");
    }
  }

  function CategoryIs(h: Host, petColumn: string, c: PetCategory): Row -> bool {
    row => CategoryOf(h, row, petColumn) == c
  }

  /** `calculatePetCategory`: four counters, one of which each response increments. */
  method CalculatePetCategory(h: Host, rows: seq<Row>, petColumn: string)
    returns (dogCount: nat, catCount: nat, bothCount: nat, unknownCount: nat)
    ensures dogCount == Count(rows, CategoryIs(h, petColumn, Dog))
    ensures catCount == Count(rows, CategoryIs(h, petColumn, Cat))
    ensures bothCount == Count(rows, CategoryIs(h, petColumn, DogAndCat))
    ensures unknownCount == Count(rows, CategoryIs(h, petColumn, Unknown))
  {
    dogCount, catCount, bothCount, unknownCount := 0, 0, 0, 0;
    for i := 0 to |rows|
      invariant dogCount == Count(rows[..i], CategoryIs(h, petColumn, Dog))
      invariant catCount == Count(rows[..i], CategoryIs(h, petColumn, Cat))
      invariant bothCount == Count(rows[..i], CategoryIs(h, petColumn, DogAndCat))
      invariant unknownCount == Count(rows[..i], CategoryIs(h, petColumn, Unknown))
    {
      var row := rows[i];
      CountStep(rows, i, CategoryIs(h, petColumn, Dog));
      CountStep(rows, i, CategoryIs(h, petColumn, Cat));
      CountStep(rows, i, CategoryIs(h, petColumn, DogAndCat));
      CountStep(rows, i, CategoryIs(h, petColumn, Unknown));
      if !Truthy(row, petColumn) {
        unknownCount := unknownCount + 1;
      } else {
        var petStr := ToLower(CellText(h, row[petColumn]));
        var hasDog := Includes(petStr, "犬");
        var hasCat := Includes(petStr, "猫");
        if hasDog && hasCat {
          bothCount := bothCount + 1;
        } else if hasDog {
          dogCount := dogCount + 1;
        } else if hasCat {
          catCount := catCount + 1;
        } else {
          unknownCount := unknownCount + 1;
        }
      }
    }
    assert rows[..|rows|] == rows;
  }

  /** Every response falls in exactly one group. */
  lemma {:induction false} CategoriesAddUp(h: Host, rows: seq<Row>, petColumn: string)
    ensures Count(rows, CategoryIs(h, petColumn, Dog)) + Count(rows, CategoryIs(h, petColumn, Cat)) +
      Count(rows, CategoryIs(h, petColumn, DogAndCat)) + Count(rows, CategoryIs(h, petColumn, Unknown)) == |rows|
    decreases |rows|
  {
    if rows != [] {
      CategoriesAddUp(h, rows[..|rows| - 1], petColumn);
    }
  }

  // ---------------------------------------------------------------------------------------
  // The analysis

  /** `MediaDetailedAnalysis`; `rentAnalysis` is `None` when the sheet has no rent column. */
  datatype MediaDetailedAnalysis = MediaDetailedAnalysis(
    mediaType: MediaType,
    yearMonth: string,
    totalLeads: nat,
    hourlyDistribution: seq<HourlyDistribution>,
    peakHour: int,
    petTypeDistribution: seq<PetTypeDistribution>,
    dogCount: nat,
    catCount: nat,
    bothCount: nat,
    unknownCount: nat,
    rentAnalysis: Option<RentAnalytics.RentAnalysis>)

  /** `r` is the analysis of the channel and period: every part is computed over the responses
    * analysed, except the rent analysis, which selects its own rows and always reads the default
    * pet column. */
  ghost predicate IsDetailedAnalysis(r: MediaDetailedAnalysis, h: Host, data: Dataset, mediaType: MediaType, yearMonth: string,
                                     dateColumn: string, mediaColumn: string, petColumn: string)
  {
    var targets := TargetRows(h, data.rows, mediaType, yearMonth, dateColumn, mediaColumn);
    r.mediaType == mediaType && r.yearMonth == yearMonth && r.totalLeads == |targets| &&
    r.hourlyDistribution == HourlyDistributionOf(targets, dateColumn) &&
    IsPeakHour(r.hourlyDistribution, r.peakHour) &&
    r.petTypeDistribution == PetTypeDistributionOf(h, targets, petColumn) &&
    r.dogCount == Count(targets, CategoryIs(h, petColumn, Dog)) &&
    r.catCount == Count(targets, CategoryIs(h, petColumn, Cat)) &&
    r.bothCount == Count(targets, CategoryIs(h, petColumn, DogAndCat)) &&
    r.unknownCount == Count(targets, CategoryIs(h, petColumn, Unknown)) &&
    r.rentAnalysis == RentTable.AnalyzeRent(h, data, mediaType, yearMonth, dateColumn, mediaColumn, RentTable.DefaultPetColumn)
  }

  /** `calculateMediaDetailedAnalysis` */
  method CalculateMediaDetailedAnalysis(h: Host, data: Dataset, mediaType: MediaType, yearMonth: string,
                                        dateColumn: string, mediaColumn: string, petColumn: string)
    returns (r: MediaDetailedAnalysis)
    ensures IsDetailedAnalysis(r, h, data, mediaType, yearMonth, dateColumn, mediaColumn, petColumn)
  {
    var targetRows := TargetRows(h, data.rows, mediaType, yearMonth, dateColumn, mediaColumn);
    var totalLeads := |targetRows|;
    var hourlyDistribution := CalculateHourlyDistribution(targetRows, dateColumn);
    var peakHour := FindPeakHour(hourlyDistribution);
    var petTypeDistribution := CalculatePetTypeDistribution(h, targetRows, petColumn);
    var dogCount, catCount, bothCount, unknownCount := CalculatePetCategory(h, targetRows, petColumn);
    var rentAnalysis := RentTable.AnalyzeRent(h, data, mediaType, yearMonth, dateColumn, mediaColumn, RentTable.DefaultPetColumn);
    r := MediaDetailedAnalysis(mediaType, yearMonth, totalLeads, hourlyDistribution, peakHour, petTypeDistribution,
      dogCount, catCount, bothCount, unknownCount, rentAnalysis);
  }

  /** The parts of an analysis agree with each other: the hours count at most the responses, the
    * pet answers and the four groups each count every response once, and the peak is an hour
    * of the day with the greatest count. */
  lemma DetailedAnalysisTotals(r: MediaDetailedAnalysis, h: Host, data: Dataset, mediaType: MediaType, yearMonth: string,
                               dateColumn: string, mediaColumn: string, petColumn: string)
    requires IsDetailedAnalysis(r, h, data, mediaType, yearMonth, dateColumn, mediaColumn, petColumn)
    ensures HourTotal(r.hourlyDistribution) <= r.totalLeads
    ensures PetTotal(r.petTypeDistribution) == r.totalLeads
    ensures r.dogCount + r.catCount + r.bothCount + r.unknownCount == r.totalLeads
    ensures 0 <= r.peakHour < 24 && forall k :: 0 <= k < 24 ==> r.hourlyDistribution[k].count <= r.hourlyDistribution[r.peakHour].count
  {
    var targets := TargetRows(h, data.rows, mediaType, yearMonth, dateColumn, mediaColumn);
    HourlyTotal(targets, dateColumn);
    PetTypeDistributionSpec(h, targets, petColumn);
    CategoriesAddUp(h, targets, petColumn);
    PeakHourOfDay(r.hourlyDistribution, r.peakHour);
  }
}
