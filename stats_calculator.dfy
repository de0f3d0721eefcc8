/**
 * Per-column statistics of the loaded table (`statsCalculator.ts`): the column's data type, its
 * blank and distinct values, numeric summaries, the most frequent texts, and hour and weekday
 * distributions of date columns.
 */
module StatsCalculator {
  import opened Wrappers
  import opened JsText
  import opened Seqs
  import opened Sorting
  import opened Spreadsheet
  import opened Tally
  import MediaAnalytics

  // ---------------------------------------------------------------------------------------
  // Results

  datatype DataType = NumberType | StringType | DateType | MixedType

  datatype NumericStats = NumericStats(min: real, max: real, mean: real, median: real, sum: real)

  datatype Frequency = Frequency(value: string, count: nat)

  /** `maxLength`, `minLength` and `avgLength` of a non-empty column; an empty one yields
    * `-Infinity`, `Infinity` and `NaN`, which the model writes as the absence of this record. */
  datatype LengthStats = LengthStats(maxLength: int, minLength: int, avgLength: real)

  datatype StringStats = StringStats(topValues: seq<Frequency>, lengths: Option<LengthStats>)

  datatype HourCount = HourCount(hour: int, count: nat)

  datatype DayCount = DayCount(dayOfWeek: int, dayName: string, count: nat)

  datatype DateRange = DateRange(min: string, max: string)

  datatype DateTimeStats = DateTimeStats(hourDistribution: seq<HourCount>, dayOfWeekDistribution: seq<DayCount>, dateRange: DateRange)

  datatype ColumnStats = ColumnStats(
    columnName: string,
    dataType: DataType,
    totalCount: nat,
    uniqueCount: nat,
    nullCount: nat,
    numericStats: Option<NumericStats>,
    stringStats: Option<StringStats>,
    dateTimeStats: Option<DateTimeStats>)

  datatype ValueFrequency = ValueFrequency(value: string, count: nat, percentage: real)

  // ---------------------------------------------------------------------------------------
  // Blank values

  /** `v === '' || v === null || v === undefined` */
  predicate IsBlank(v: Option<Cell>) {
    v.None? || v == Some(Str(""))
  }

  /** The values that are not blank, in order. */
  function NonBlank(values: seq<Option<Cell>>): (r: seq<Cell>)
    ensures |r| + Count(values, IsBlank) == |values|
    ensures forall c :: c in r ==> c != Str("")
    decreases |values|
  {
    if values == [] then []
    else
      var last := values[|values| - 1];
      NonBlank(values[..|values| - 1]) + if IsBlank(last) then [] else [last.value]
  }

  /** `String(v)` of each value. */
  function Texts(h: Host, values: seq<Cell>): (r: seq<string>)
    ensures |r| == |values|
  {
    MapSeq(values, (c: Cell) => CellText(h, c))
  }

  // ---------------------------------------------------------------------------------------
  // detectDataType

  /** What the loop counts a value as. */
  datatype Kind = NumberKind | DateKind | TextKind

  /** A number is a number; a text is a date when it looks like one, else a number when both
    * `parseFloat` and `Number` read a finite number from it, else text. */
  function KindOf(h: Host, v: Cell): (r: Kind)
    ensures v.Num? ==> r == NumberKind
    ensures r == DateKind ==> v.Str? && |v.text| >= 8 && h.parseDate(v.text).Some?
  {
    match v
    case Num(_) => NumberKind
    case Str(s) =>
      if IsDateString(h, s) then DateKind
      else if h.parseFloat(s).Some? && h.isFiniteNumber(s) then NumberKind
      else TextKind
  }

  function HasKind(h: Host, k: Kind): Cell -> bool {
    v => KindOf(h, v) == k
  }

  /** The decision once the values are counted: 80% dates, else 80% numbers, else text with or
    * without other kinds beside it. `x / n >= 0.8` is written `5 * x >= 4 * n`. */
  function Verdict(n: nat, numbers: nat, dates: nat, texts: nat): DataType {
    if n == 0 then StringType
    else if 5 * dates >= 4 * n then DateType
    else if 5 * numbers >= 4 * n then NumberType
    else if texts > 0 then (if numbers > 0 || dates > 0 then MixedType else StringType)
    else StringType
  }

  /** The data type of a list of non-blank values. */
  function DataTypeOf(h: Host, values: seq<Cell>): DataType {
    Verdict(|values|, Count(values, HasKind(h, NumberKind)), Count(values, HasKind(h, DateKind)), Count(values, HasKind(h, TextKind)))
  }

  /** The counting loop of `detectDataType`. */
  method DetectDataType(h: Host, values: seq<Cell>) returns (r: DataType)
    ensures r == DataTypeOf(h, values)
  {
    if |values| == 0 {
      return StringType;
    }
    var numberCount, stringCount, dateCount := 0, 0, 0;
    ghost var isNumber, isDate, isText := HasKind(h, NumberKind), HasKind(h, DateKind), HasKind(h, TextKind);
    for i := 0 to |values|
      invariant numberCount == Count(values[..i], isNumber)
      invariant dateCount == Count(values[..i], isDate)
      invariant stringCount == Count(values[..i], isText)
    {
      CountStep(values, i, isNumber);
      CountStep(values, i, isDate);
      CountStep(values, i, isText);
      match values[i]
      case Num(_) =>
        numberCount := numberCount + 1;
      case Str(strValue) =>
        if IsDateString(h, strValue) {
          dateCount := dateCount + 1;
        } else if h.parseFloat(strValue).Some? && h.isFiniteNumber(strValue) {
          numberCount := numberCount + 1;
        } else {
          stringCount := stringCount + 1;
        }
    }
    assert values[..|values|] == values;
    if 5 * dateCount >= 4 * |values| {
      return DateType;
    }
    if 5 * numberCount >= 4 * |values| {
      return NumberType;
    }
    if stringCount > 0 {
      return if numberCount > 0 || dateCount > 0 then MixedType else StringType;
    }
    return StringType;
  }

  /** Every value is counted as exactly one kind. */
  lemma KindsPartition(h: Host, values: seq<Cell>)
    ensures Count(values, HasKind(h, NumberKind)) + Count(values, HasKind(h, DateKind)) + Count(values, HasKind(h, TextKind)) == |values|
  {
    var numberOrDate := (v: Cell) => KindOf(h, v) != TextKind;
    CountDisjoint(values, HasKind(h, NumberKind), HasKind(h, DateKind), numberOrDate);
    CountDisjoint(values, numberOrDate, HasKind(h, TextKind), v => true);
    CountAll(values, v => true);
  }

  /** What each data type means in terms of the counts: dates first, then numbers, and "mixed"
    * exactly when neither reaches 80% and text sits beside other kinds. */
  lemma DataTypeSpec(h: Host, values: seq<Cell>)
    ensures var n, numbers, dates, texts := |values|, Count(values, HasKind(h, NumberKind)), Count(values, HasKind(h, DateKind)), Count(values, HasKind(h, TextKind));
      && (DataTypeOf(h, values) == DateType <==> n > 0 && 5 * dates >= 4 * n)
      && (DataTypeOf(h, values) == NumberType <==> n > 0 && 5 * dates < 4 * n && 5 * numbers >= 4 * n)
      && (DataTypeOf(h, values) == MixedType <==> 5 * dates < 4 * n && 5 * numbers < 4 * n && 0 < texts < n)
      && (DataTypeOf(h, values) == StringType <==> n == 0 || (5 * dates < 4 * n && 5 * numbers < 4 * n && (texts == 0 || texts == n)))
  {
    KindsPartition(h, values);
  }

  /** A column split evenly between dates and numbers, with no other text, is a string column:
    * without a text value the verdict never says "mixed". */
  lemma DatesAndNumbersWithoutTextIsString(h: Host, values: seq<Cell>)
    requires Count(values, HasKind(h, DateKind)) == Count(values, HasKind(h, NumberKind)) > 0
    requires Count(values, HasKind(h, TextKind)) == 0
    ensures DataTypeOf(h, values) == StringType
  {
    KindsPartition(h, values);
  }

  /** A column of numbers only is a number column. */
  lemma NumbersOnlyIsNumber(h: Host, values: seq<Cell>)
    requires values != [] && forall i :: 0 <= i < |values| ==> values[i].Num?
    ensures DataTypeOf(h, values) == NumberType
  {
    CountAll(values, HasKind(h, NumberKind));
    KindsPartition(h, values);
  }

  // ---------------------------------------------------------------------------------------
  // isDateString

  predicate IsSeparator(c: char) {
    c == '-' || c == '/'
  }

  /** The number of ASCII digits (`\d`) from position `i` on. */
  function DigitRun(t: string, i: nat): (r: nat)
    requires i <= |t|
    ensures i + r <= |t|
    decreases |t| - i
  {
    if i < |t| && IsDigit(t[i]) then 1 + DigitRun(t, i + 1) else 0
  }

  /** The number of white-space characters (`\s`) from position `i` on. */
  function SpaceRun(t: string, i: nat): (r: nat)
    requires i <= |t|
    ensures i + r <= |t|
    decreases |t| - i
  {
    if i < |t| && IsSpace(t[i]) then 1 + SpaceRun(t, i + 1) else 0
  }

  /** A group `\d{lo,hi}` of a date pattern. */
  datatype Width = Width(lo: nat, hi: nat)

  /** `\d{4}[-/]\d{1,2}[-/]\d{1,2}` */
  const YearFirst: seq<Width> := [Width(4, 4), Width(1, 2), Width(1, 2)]

  /** `\d{1,2}[-/]\d{1,2}[-/]\d{4}` */
  const DayFirst: seq<Width> := [Width(1, 2), Width(1, 2), Width(4, 4)]

  /**
   * Where digit groups of the given widths, separated by `-` or `/`, end when they start at
   * position `i`. A group is followed by a separator or by a character that is not a digit, so
   * the regular expression's backtracking has no other choice than the longest run of digits.
   */
  function GroupsEnd(t: string, i: nat, groups: seq<Width>): (r: Option<nat>)
    requires i <= |t|
    ensures r.Some? ==> i <= r.value <= |t|
    decreases |groups|
  {
    if groups == [] then Some(i)
    else
      var n := DigitRun(t, i);
      if n < groups[0].lo || n > groups[0].hi then None
      else if |groups| == 1 then Some(i + n)
      else if i + n < |t| && IsSeparator(t[i + n]) then GroupsEnd(t, i + n + 1, groups[1..])
      else None
  }

  /** `\s+\d{1,2}:\d{1,2}` at position `e`, with anything after it. */
  predicate TimeFollows(t: string, e: nat)
    requires e <= |t|
  {
    var spaces := SpaceRun(t, e);
    var j := e + spaces;
    var hours := DigitRun(t, j);
    spaces >= 1 && 1 <= hours <= 2 && j + hours < |t| && t[j + hours] == ':' && DigitRun(t, j + hours + 1) >= 1
  }

  /** `^<date>$` or `^<date>\s+\d{1,2}:\d{1,2}`. */
  predicate MatchesDate(t: string, groups: seq<Width>) {
    var e := GroupsEnd(t, 0, groups);
    e.Some? && (e.value == |t| || TimeFollows(t, e.value))
  }

  /** One of the four patterns matches. */
  predicate DatePattern(t: string) {
    MatchesDate(t, YearFirst) || MatchesDate(t, DayFirst)
  }

  /** At least eight characters, a date pattern on the trimmed text, and a valid `Date`. */
  predicate IsDateString(h: Host, value: string) {
    |value| >= 8 && DatePattern(Trim(value)) && h.parseDate(value).Some?
  }

  /** Positions `i .. i + n - 1` hold digits. */
  predicate DigitsAt(t: string, i: nat, n: nat) {
    i + n <= |t| && forall k :: i <= k < i + n ==> IsDigit(t[k])
  }

  /** `n` digits from position `i` on, followed by the end or by a non-digit, are read whole. */
  lemma {:induction false} DigitRunAt(t: string, i: nat, n: nat)
    requires DigitsAt(t, i, n) && (i + n == |t| || !IsDigit(t[i + n]))
    ensures DigitRun(t, i) == n
    decreases n
  {
    if n > 0 {
      DigitRunAt(t, i + 1, n - 1);
    }
  }

  /** `n` white-space characters from position `i` on, followed by a non-space, are read whole. */
  lemma {:induction false} SpaceRunAt(t: string, i: nat, n: nat)
    requires i + n < |t| && (forall k :: i <= k < i + n ==> IsSpace(t[k])) && !IsSpace(t[i + n])
    ensures SpaceRun(t, i) == n
    decreases n
  {
    if n > 0 {
      SpaceRunAt(t, i + 1, n - 1);
    }
  }

  /** A group of `n` digits that fits `w` and is followed by a separator hands over to the
    * groups after it. */
  lemma GroupThenSeparator(t: string, i: nat, n: nat, groups: seq<Width>)
    requires |groups| >= 2 && groups[0].lo <= n <= groups[0].hi
    requires DigitsAt(t, i, n) && i + n < |t| && IsSeparator(t[i + n])
    ensures GroupsEnd(t, i, groups) == GroupsEnd(t, i + n + 1, groups[1..])
  {
    DigitRunAt(t, i, n);
  }

  /** A last group of `n` digits that fits `w` ends the date. */
  lemma LastGroup(t: string, i: nat, n: nat, groups: seq<Width>)
    requires |groups| == 1 && groups[0].lo <= n <= groups[0].hi
    requires DigitsAt(t, i, n) && (i + n == |t| || !IsDigit(t[i + n]))
    ensures GroupsEnd(t, i, groups) == Some(i + n)
  {
    DigitRunAt(t, i, n);
  }

  /** Three digit groups of widths `a`, `b`, `c` that fit the pattern, separated by `-` or `/`,
    * end after the third group. */
  lemma ThreeGroups(t: string, groups: seq<Width>, a: nat, b: nat, c: nat)
    requires |groups| == 3
    requires groups[0].lo <= a <= groups[0].hi && groups[1].lo <= b <= groups[1].hi && groups[2].lo <= c <= groups[2].hi
    requires DigitsAt(t, 0, a) && a < |t| && IsSeparator(t[a])
    requires DigitsAt(t, a + 1, b) && a + 1 + b < |t| && IsSeparator(t[a + 1 + b])
    requires DigitsAt(t, a + b + 2, c) && (a + b + c + 2 == |t| || !IsDigit(t[a + b + c + 2]))
    ensures GroupsEnd(t, 0, groups) == Some(a + b + c + 2)
  {
    GroupThenSeparator(t, 0, a, groups);
    GroupThenSeparator(t, a + 1, b, groups[1..]);
    LastGroup(t, a + b + 2, c, groups[1..][1..]);
  }

  /** White space, an hour of one or two digits, a colon and at least one digit of minutes. */
  lemma TimeAt(t: string, e: nat, spaces: nat, hours: nat)
    requires spaces >= 1 && 1 <= hours <= 2
    requires e + spaces < |t| && (forall k :: e <= k < e + spaces ==> IsSpace(t[k])) && !IsSpace(t[e + spaces])
    requires DigitsAt(t, e + spaces, hours) && e + spaces + hours + 1 < |t| && t[e + spaces + hours] == ':'
    requires IsDigit(t[e + spaces + hours + 1])
    ensures TimeFollows(t, e)
  {
    SpaceRunAt(t, e, spaces);
    DigitRunAt(t, e + spaces, hours);
  }

  /** The first test value, `2024/11/02 19:17:22`, has a date pattern. */
  lemma DateTimeExample()
    ensures DatePattern("2024/11/02 19:17:22")
  {
    var t := "2024/11/02 19:17:22";
    ThreeGroups(t, YearFirst, 4, 2, 2);
    TimeExample(t);
  }

  lemma TimeExample(t: string)
    requires t == "2024/11/02 19:17:22"
    ensures TimeFollows(t, 10)
  {
    assert IsDigit(t[11]) && IsDigit(t[12]) && t[13] == ':' && IsDigit(t[14]);
    TimeAt(t, 10, 1, 2);
  }

  /** `2024/11/02` has a date pattern. */
  lemma DateExample()
    ensures DatePattern("2024/11/02")
  {
    ThreeGroups("2024/11/02", YearFirst, 4, 2, 2);
  }

  /** `02-11-2024` has a date pattern. */
  lemma DayFirstExample()
    ensures DatePattern("02-11-2024")
  {
    ThreeGroups("02-11-2024", DayFirst, 2, 2, 4);
  }

  /** A quoted timestamp has none: the pattern must start at the first character. */
  lemma QuotedExample()
    ensures !DatePattern("\"2024/11/02 19:17:22\"")
  {
  }

  /** `02-11-2024` is a date whenever the host reads it as one. */
  lemma DayFirstDateString(h: Host)
    requires h.parseDate("02-11-2024").Some?
    ensures IsDateString(h, "02-11-2024")
  {
    TrimIdentity("02-11-2024");
    DayFirstExample();
  }

  /** Texts shorter than eight characters, such as a bare year, are never dates. */
  lemma ShortTextIsNoDate(h: Host, value: string)
    requires |value| < 8
    ensures !IsDateString(h, value)
  {
  }

  // ---------------------------------------------------------------------------------------
  // Numeric statistics

  /** `typeof v === 'number' ? v : parseFloat(String(v))`, `None` for `NaN`. */
  function NumericValue(h: Host, c: Cell): Option<real> {
    match c
    case Num(x) => Some(x)
    case Str(s) => h.parseFloat(s)
  }

  /** The values that read as numbers, in order. */
  function NumericValues(h: Host, values: seq<Cell>): (r: seq<real>)
    ensures |r| <= |values|
    decreases |values|
  {
    if values == [] then []
    else
      var v := NumericValue(h, values[|values| - 1]);
      NumericValues(h, values[..|values| - 1]) + if v.Some? then [v.value] else []
  }

  /** `calculateMedian`: the middle element of a sorted list, or the mean of the two middle ones. */
  function Median(sorted: seq<real>): real
    requires sorted != []
  {
    var mid := |sorted| / 2;
    if |sorted| % 2 == 0 then (sorted[mid - 1] + sorted[mid]) / 2.0 else sorted[mid]
  }

  /** The first half of a sorted list lies at or below the median and the second half at or above it. */
  lemma MedianSplitsInHalf(sorted: seq<real>)
    requires sorted != [] && forall i, j :: 0 <= i < j < |sorted| ==> sorted[i] <= sorted[j]
    ensures forall k :: 0 <= k < |sorted| / 2 ==> sorted[k] <= Median(sorted)
    ensures forall k :: |sorted| / 2 <= k < |sorted| ==> Median(sorted) <= sorted[k]
  {
    var mid := |sorted| / 2;
    if |sorted| % 2 == 0 {
      assert sorted[mid - 1] <= sorted[mid];
    }
  }

  /** `numericStats` of a list of numbers; none for an empty list. */
  function NumericStatsOf(xs: seq<real>): Option<NumericStats> {
    if xs == [] then None
    else
      var sorted := SortReals(xs);
      var sum := SumReals(xs);
      Some(NumericStats(sorted[0], sorted[|sorted| - 1], MediaAnalytics.Ratio(sum, |xs| as real), Median(sorted), sum))
  }

  lemma {:induction false} SumRealsBounds(xs: seq<real>, lo: real, hi: real)
    requires forall i :: 0 <= i < |xs| ==> lo <= xs[i] <= hi
    ensures |xs| as real * lo <= SumReals(xs) <= |xs| as real * hi
    decreases |xs|
  {
    if xs != [] {
      SumRealsBounds(xs[..|xs| - 1], lo, hi);
    }
  }

  lemma MeanOfValuesBetween(xs: seq<real>, lo: real, hi: real, mean: real)
    requires xs != [] && forall i :: 0 <= i < |xs| ==> lo <= xs[i] <= hi
    requires MediaAnalytics.IsRatio(mean, SumReals(xs), |xs| as real)
    ensures lo <= mean <= hi
  {
    SumRealsBounds(xs, lo, hi);
    MeanBetween(mean, SumReals(xs), |xs| as real, lo, hi);
  }

  /** A mean lies between the bounds of the values it averages. */
  lemma MeanBetween(mean: real, sum: real, n: real, lo: real, hi: real)
    requires n > 0.0 && MediaAnalytics.IsRatio(mean, sum, n) && n * lo <= sum <= n * hi
    ensures lo <= mean <= hi
  {
    assert (mean - lo) * n == sum - n * lo;
    assert (hi - mean) * n == n * hi - sum;
  }

  /** The minimum and maximum are values of the list that bound all of it; the sum is the sum,
    * the mean is the sum divided by the count, and mean and median lie between the bounds. */
  lemma NumericStatsSpec(xs: seq<real>)
    ensures NumericStatsOf(xs).Some? <==> xs != []
    ensures NumericStatsOf(xs).Some? ==>
      var st := NumericStatsOf(xs).value;
      && st.min in xs && st.max in xs
      && (forall i :: 0 <= i < |xs| ==> st.min <= xs[i] <= st.max)
      && st.sum == SumReals(xs)
      && MediaAnalytics.IsRatio(st.mean, st.sum, |xs| as real)
      && st.min <= st.mean <= st.max
      && st.min <= st.median <= st.max
  {
    if xs != [] {
      var st := NumericStatsOf(xs).value;
      NumericBounds(xs, st);
      NumericMean(xs, st);
      NumericMedian(xs, st);
    }
  }

  lemma NumericBounds(xs: seq<real>, st: NumericStats)
    requires xs != [] && NumericStatsOf(xs) == Some(st)
    ensures st.min in xs && st.max in xs && forall i :: 0 <= i < |xs| ==> st.min <= xs[i] <= st.max
  {
    SortRealsEnds(xs);
  }

  lemma NumericMean(xs: seq<real>, st: NumericStats)
    requires xs != [] && NumericStatsOf(xs) == Some(st)
    ensures st.sum == SumReals(xs) && MediaAnalytics.IsRatio(st.mean, st.sum, |xs| as real)
    ensures st.min <= st.mean <= st.max
  {
    NumericSum(xs, st);
    NumericBounds(xs, st);
    MeanOfValuesBetween(xs, st.min, st.max, st.mean);
  }

  lemma NumericSum(xs: seq<real>, st: NumericStats)
    requires xs != [] && NumericStatsOf(xs) == Some(st)
    ensures st.sum == SumReals(xs) && MediaAnalytics.IsRatio(st.mean, st.sum, |xs| as real)
  {
  }

  lemma NumericMedian(xs: seq<real>, st: NumericStats)
    requires xs != [] && NumericStatsOf(xs) == Some(st)
    ensures st.min <= st.median <= st.max
  {
    var sorted := SortReals(xs);
    MedianSplitsInHalf(sorted);
    assert sorted[0] <= sorted[|sorted| / 2];
  }

  // ---------------------------------------------------------------------------------------
  // Text statistics

  function ToFrequency(e: (string, nat)): Frequency {
    Frequency(e.0, e.1)
  }

  /** The comparator `(a, b) => b.count - a.count`. */
  const FrequencyByCount: (Frequency, Frequency) -> bool := (a: Frequency, b: Frequency) => a.count >= b.count

  /** `calculateFrequencies`: the counted values, sorted by descending count. */
  function FrequenciesOf(values: seq<string>): seq<Frequency> {
    InsertionSort(MapSeq(Entries(Distinct(values), values), ToFrequency), FrequencyByCount)
  }

  method CalculateFrequencies(values: seq<string>) returns (r: seq<Frequency>)
    ensures r == FrequenciesOf(values)
  {
    var keys, counts := CountByKey(values);
    var entries := seq(|keys|, i requires 0 <= i < |keys| => Frequency(keys[i], counts[keys[i]]));
    assert entries == MapSeq(Entries(keys, values), ToFrequency);
    r := InsertionSort(entries, FrequencyByCount);
  }

  /** Sorting the `{value, count}` records is sorting the counted pairs. */
  lemma FrequenciesAreCounts(values: seq<string>)
    ensures FrequenciesOf(values) == MapSeq(CountsByValue(values), ToFrequency)
  {
    InsertionSortMap(Entries(Distinct(values), values), ByCountDescending<string>(), ToFrequency, FrequencyByCount);
  }

  /** One record per distinct value, carrying its number of occurrences, most frequent first. */
  lemma FrequenciesSpec(values: seq<string>)
    ensures var r := FrequenciesOf(values);
      && |r| == |Distinct(values)|
      && (forall i, j :: 0 <= i < j < |r| ==> r[i].count >= r[j].count)
      && (forall i :: 0 <= i < |r| ==> r[i].value in values && r[i].count == Occurrences(values, r[i].value))
      && (forall x :: x in values ==> Frequency(x, Occurrences(values, x)) in r)
      && (forall i, j :: 0 <= i < j < |r| ==> r[i].value != r[j].value)
  {
    FrequenciesAreCounts(values);
    FrequencyRecords(values);
    FrequenciesComplete(values);
  }

  lemma FrequencyRecords(values: seq<string>)
    requires FrequenciesOf(values) == MapSeq(CountsByValue(values), ToFrequency)
    ensures var r := FrequenciesOf(values);
      && |r| == |Distinct(values)|
      && (forall i, j :: 0 <= i < j < |r| ==> r[i].count >= r[j].count)
      && (forall i :: 0 <= i < |r| ==> r[i].value in values && r[i].count == Occurrences(values, r[i].value))
      && (forall i, j :: 0 <= i < j < |r| ==> r[i].value != r[j].value)
  {
    var c := CountsByValue(values);
    PermutedEntriesCounts(c, values);
    PermutedEntriesDistinct(c, values);
  }

  lemma FrequenciesComplete(values: seq<string>)
    requires FrequenciesOf(values) == MapSeq(CountsByValue(values), ToFrequency)
    ensures forall x :: x in values ==> Frequency(x, Occurrences(values, x)) in FrequenciesOf(values)
  {
    var c := CountsByValue(values);
    var r := FrequenciesOf(values);
    PermutedEntriesComplete(c, values);
    forall x | x in values
      ensures Frequency(x, Occurrences(values, x)) in r
    {
      var k :| 0 <= k < |c| && c[k] == (x, Occurrences(values, x));
      assert r[k] == Frequency(x, Occurrences(values, x));
    }
  }

  /** `slice(0, n)` */
  function Take<T>(s: seq<T>, n: nat): (r: seq<T>)
    ensures |r| == if n <= |s| then n else |s|
    ensures forall i :: 0 <= i < |r| ==> r[i] == s[i]
  {
    if n <= |s| then s[..n] else s
  }

  /** A value missing from the ten most frequent is no more frequent than the tenth. */
  lemma TopValuesAreMostFrequent(values: seq<string>, x: string)
    requires x in values
    requires Frequency(x, Occurrences(values, x)) !in Take(FrequenciesOf(values), 10)
    ensures |FrequenciesOf(values)| > 10 && Occurrences(values, x) <= FrequenciesOf(values)[9].count
  {
    FrequenciesSpec(values);
    var r := FrequenciesOf(values);
    var k :| 0 <= k < |r| && r[k] == Frequency(x, Occurrences(values, x));
  }

  /** `Math.round`: the nearest integer, halves rounded up. */
  function Round(x: real): int {
    (x + 0.5).Floor
  }

  lemma RoundClose(x: real)
    ensures x - 0.5 < Round(x) as real <= x + 0.5
  {
  }

  /** Lengths of a non-empty list of texts; the average is rounded to one decimal. */
  function LengthStatsOf(texts: seq<string>): Option<LengthStats> {
    if texts == [] then None
    else
      var lengths := MapSeq(texts, (t: string) => |t| as int);
      var mean := MediaAnalytics.Ratio(Sum(lengths) as real, |lengths| as real);
      Some(LengthStats(Max(lengths), Min(lengths), Round(mean * 10.0) as real / 10.0))
  }

  /** The longest and shortest lengths are lengths of values that bound all of them, and the
    * average is within 0.05 of the mean length. */
  lemma LengthStatsSpec(texts: seq<string>)
    ensures LengthStatsOf(texts).Some? <==> texts != []
    ensures LengthStatsOf(texts).Some? ==>
      var st := LengthStatsOf(texts).value;
      var mean := MediaAnalytics.Ratio(Sum(MapSeq(texts, (t: string) => |t| as int)) as real, |texts| as real);
      && (exists i :: 0 <= i < |texts| && |texts[i]| == st.maxLength)
      && (exists i :: 0 <= i < |texts| && |texts[i]| == st.minLength)
      && (forall i :: 0 <= i < |texts| ==> st.minLength <= |texts[i]| <= st.maxLength)
      && mean - 0.05 < st.avgLength <= mean + 0.05
  {
    if texts != [] {
      var lengths := MapSeq(texts, (t: string) => |t| as int);
      var mean := MediaAnalytics.Ratio(Sum(lengths) as real, |lengths| as real);
      RoundClose(mean * 10.0);
      var st := LengthStatsOf(texts).value;
      var i :| 0 <= i < |lengths| && lengths[i] == st.maxLength;
      var j :| 0 <= j < |lengths| && lengths[j] == st.minLength;
      assert |texts[i]| == st.maxLength && |texts[j]| == st.minLength;
    }
  }

  /** `stringStats`: the ten most frequent values and the lengths. */
  function StringStatsOf(texts: seq<string>): StringStats {
    StringStats(Take(FrequenciesOf(texts), 10), LengthStatsOf(texts))
  }

  // ---------------------------------------------------------------------------------------
  // Date statistics

  /** `new Date(String(v))` of each value, the invalid dates dropped. */
  function Timestamps(h: Host, values: seq<Cell>): (r: seq<int>)
    ensures |r| <= |values|
    decreases |values|
  {
    if values == [] then []
    else
      var d := h.parseDate(CellText(h, values[|values| - 1]));
      Timestamps(h, values[..|values| - 1]) + if d.Some? then [d.value] else []
  }

  const DayNames: seq<string> := ["日曜日", "月曜日", "火曜日", "水曜日", "木曜日", "金曜日", "土曜日"]

  /** The comparator `(a, b) => a.hour - b.hour`. */
  const ByHour: (HourCount, HourCount) -> bool := (a: HourCount, b: HourCount) => a.hour <= b.hour

  /** The comparator `(a, b) => a.dayOfWeek - b.dayOfWeek`. */
  const ByDay: (DayCount, DayCount) -> bool := (a: DayCount, b: DayCount) => a.dayOfWeek <= b.dayOfWeek

  /** Each hour 0 .. 23 with the number of dates in it. */
  function HourDistributionOf(h: Host, dates: seq<int>): (r: seq<HourCount>)
    ensures |r| == 24
  {
    var counts := SlotCounts(dates, h.hours, 24);
    seq(24, k requires 0 <= k < 24 => HourCount(k, counts[k]))
  }

  /** Each weekday 0 .. 6, Sunday first, with its name and the number of dates on it. */
  function DayDistributionOf(h: Host, dates: seq<int>): (r: seq<DayCount>)
    ensures |r| == 7
  {
    var counts := SlotCounts(dates, h.weekday, 7);
    seq(7, k requires 0 <= k < 7 => DayCount(k, DayNames[k], counts[k]))
  }

  method CalculateHourDistribution(h: Host, dates: seq<int>) returns (r: seq<HourCount>)
    requires ValidHost(h)
    ensures r == HourDistributionOf(h, dates)
  {
    DatesInRange(h, dates);
    var counts := CountIntoSlots(dates, h.hours, 24);
    var entries := seq(24, k requires 0 <= k < 24 => HourCount(k, counts[k]));
    InsertionSortOfSorted(entries, ByHour);
    r := InsertionSort(entries, ByHour);
  }

  method CalculateDayOfWeekDistribution(h: Host, dates: seq<int>) returns (r: seq<DayCount>)
    requires ValidHost(h)
    ensures r == DayDistributionOf(h, dates)
  {
    DatesInRange(h, dates);
    var counts := CountIntoSlots(dates, h.weekday, 7);
    var entries := seq(7, k requires 0 <= k < 7 => DayCount(k, DayNames[k], counts[k]));
    InsertionSortOfSorted(entries, ByDay);
    r := InsertionSort(entries, ByDay);
  }

  lemma DatesInRange(h: Host, dates: seq<int>)
    requires ValidHost(h)
    ensures forall i :: 0 <= i < |dates| ==> 0 <= h.hours(dates[i]) < 24 && 0 <= h.weekday(dates[i]) < 7
  {
    forall i | 0 <= i < |dates|
      ensures 0 <= h.hours(dates[i]) < 24 && 0 <= h.weekday(dates[i]) < 7
    {
      HostRanges(h, dates[i]);
    }
  }

  function HourCountOf(c: HourCount): int {
    c.count
  }

  function DayCountOf(c: DayCount): int {
    c.count
  }

  /** Hour `k` counts the dates whose local hour is `k`, and the counts add up to all dates. */
  lemma HourDistributionSpec(h: Host, dates: seq<int>)
    requires ValidHost(h)
    ensures forall k :: 0 <= k < 24 ==>
      HourDistributionOf(h, dates)[k].hour == k && HourDistributionOf(h, dates)[k].count == Count(dates, SlotIs(h.hours, k))
    ensures Sum(MapSeq(HourDistributionOf(h, dates), HourCountOf)) == |dates|
  {
    DatesInRange(h, dates);
    SlotCountsTotal(dates, h.hours, 24);
    assert MapSeq(HourDistributionOf(h, dates), HourCountOf) == SlotCounts(dates, h.hours, 24);
  }

  /** Weekday `k` counts the dates on that weekday, and the counts add up to all dates. */
  lemma DayDistributionSpec(h: Host, dates: seq<int>)
    requires ValidHost(h)
    ensures forall k :: 0 <= k < 7 ==>
      && DayDistributionOf(h, dates)[k].dayOfWeek == k
      && DayDistributionOf(h, dates)[k].dayName == DayNames[k]
      && DayDistributionOf(h, dates)[k].count == Count(dates, SlotIs(h.weekday, k))
    ensures Sum(MapSeq(DayDistributionOf(h, dates), DayCountOf)) == |dates|
  {
    DatesInRange(h, dates);
    SlotCountsTotal(dates, h.weekday, 7);
    DayCountsAreSlots(h, dates);
  }

  lemma DayCountsAreSlots(h: Host, dates: seq<int>)
    ensures MapSeq(DayDistributionOf(h, dates), DayCountOf) == SlotCounts(dates, h.weekday, 7)
  {
  }

  /** `dateTimeStats` of the valid dates; none when there are none. */
  function DateTimeStatsOf(h: Host, dates: seq<int>): Option<DateTimeStats> {
    if dates == [] then None
    else
      var sorted := SortInts(dates);
      Some(DateTimeStats(HourDistributionOf(h, dates), DayDistributionOf(h, dates),
        DateRange(h.localeText(sorted[0]), h.localeText(sorted[|sorted| - 1]))))
  }

  /** The date range shows the earliest and the latest date. */
  lemma DateRangeSpec(h: Host, dates: seq<int>)
    ensures DateTimeStatsOf(h, dates).Some? <==> dates != []
    ensures dates != [] ==>
      DateTimeStatsOf(h, dates).value.dateRange == DateRange(h.localeText(Min(dates)), h.localeText(Max(dates)))
  {
    if dates != [] {
      SortIntsEnds(dates);
    }
  }

  // ---------------------------------------------------------------------------------------
  // calculateColumnStats

  /** The statistics of one column. */
  function ColumnStatsOf(h: Host, rows: seq<Row>, column: string): ColumnStats {
    var values := ColumnValues(rows, column);
    var nonNull := NonBlank(values);
    var dataType := DataTypeOf(h, nonNull);
    var texts := Texts(h, nonNull);
    ColumnStats(
      column, dataType, |values|, |Distinct(texts)|, Count(values, IsBlank),
      if dataType == NumberType then NumericStatsOf(NumericValues(h, nonNull)) else None,
      if dataType == StringType || dataType == MixedType then Some(StringStatsOf(texts)) else None,
      if dataType == DateType then DateTimeStatsOf(h, Timestamps(h, nonNull)) else None)
  }

  method CalculateColumnStats(h: Host, data: Dataset, columnName: string) returns (stats: ColumnStats)
    requires ValidHost(h)
    ensures stats == ColumnStatsOf(h, data.rows, columnName)
  {
    var values := ColumnValues(data.rows, columnName);
    var nonNullValues := NonBlank(values);
    var dataType := DetectDataType(h, nonNullValues);
    var texts := Texts(h, nonNullValues);
    stats := ColumnStats(columnName, dataType, |values|, |Distinct(texts)|, Count(values, IsBlank), None, None, None);
    if dataType == NumberType {
      stats := stats.(numericStats := NumericStatsOf(NumericValues(h, nonNullValues)));
    }
    if dataType == StringType || dataType == MixedType {
      var frequencies := CalculateFrequencies(texts);
      stats := stats.(stringStats := Some(StringStats(Take(frequencies, 10), LengthStatsOf(texts))));
    }
    if dataType == DateType {
      var dateValues := Timestamps(h, nonNullValues);
      if |dateValues| > 0 {
        var hourDistribution := CalculateHourDistribution(h, dateValues);
        var dayOfWeekDistribution := CalculateDayOfWeekDistribution(h, dateValues);
        var sortedDates := SortInts(dateValues);
        var dateRange := DateRange(h.localeText(sortedDates[0]), h.localeText(sortedDates[|sortedDates| - 1]));
        stats := stats.(dateTimeStats := Some(DateTimeStats(hourDistribution, dayOfWeekDistribution, dateRange)));
      }
    }
  }

  /** The counts add up, distinct values are at most the non-blank ones, and exactly the
    * statistics of the detected type are present. */
  lemma ColumnStatsSpec(h: Host, rows: seq<Row>, column: string)
    ensures var r := ColumnStatsOf(h, rows, column);
      var nonNull := NonBlank(ColumnValues(rows, column));
      && r.columnName == column
      && r.totalCount == |rows| == r.nullCount + |nonNull|
      && r.uniqueCount <= r.totalCount - r.nullCount
      && r.dataType == DataTypeOf(h, nonNull)
      && (r.numericStats.Some? <==> r.dataType == NumberType && NumericValues(h, nonNull) != [])
      && (r.stringStats.Some? <==> r.dataType == StringType || r.dataType == MixedType)
      && (r.dateTimeStats.Some? <==> r.dataType == DateType && Timestamps(h, nonNull) != [])
  {
    var nonNull := NonBlank(ColumnValues(rows, column));
    DistinctNoLonger(Texts(h, nonNull));
  }

  /** Each blank value is counted as a null, whether the column is missing from the row or empty. */
  lemma NullCountSpec(h: Host, rows: seq<Row>, column: string)
    ensures ColumnStatsOf(h, rows, column).nullCount == Count(rows, (row: Row) => column !in row || row[column] == Str(""))
  {
    var values := ColumnValues(rows, column);
    NullCountOfRows(rows, column);
  }

  lemma {:induction false} NullCountOfRows(rows: seq<Row>, column: string)
    ensures Count(ColumnValues(rows, column), IsBlank) == Count(rows, (row: Row) => column !in row || row[column] == Str(""))
    decreases |rows|
  {
    if rows != [] {
      NullCountOfRows(rows[..|rows| - 1], column);
      assert ColumnValues(rows, column)[..|rows| - 1] == ColumnValues(rows[..|rows| - 1], column);
    }
  }

  // ---------------------------------------------------------------------------------------
  // getValueFrequencies

  /** `{ value, count, percentage: Math.round((count / totalCount) * 10000) / 100 }` */
  function WithPercentage(total: nat): ((string, nat)) -> ValueFrequency {
    (e: (string, nat)) => ValueFrequency(e.0, e.1, Round(MediaAnalytics.Ratio(e.1 as real, total as real) * 10000.0) as real / 100.0)
  }

  /** The comparator `(a, b) => b.count - a.count`. */
  const ValueByCount: (ValueFrequency, ValueFrequency) -> bool := (a: ValueFrequency, b: ValueFrequency) => a.count >= b.count

  /** Where `slice(0, end)` stops on a list of length `len`. */
  function SliceEnd(len: nat, end: int): (r: nat)
    ensures r <= len
  {
    if end < 0 then (if len + end > 0 then len + end else 0)
    else if end <= len then end
    else len
  }

  /** The non-blank values of a column as texts. */
  function ColumnTexts(h: Host, rows: seq<Row>, column: string): seq<string> {
    Texts(h, NonBlank(ColumnValues(rows, column)))
  }

  /** The `limit` most frequent values of a column, with their share of the non-blank values. */
  function ValueFrequenciesOf(h: Host, rows: seq<Row>, column: string, limit: int): seq<ValueFrequency> {
    var texts := ColumnTexts(h, rows, column);
    var sorted := InsertionSort(MapSeq(Entries(Distinct(texts), texts), WithPercentage(|texts|)), ValueByCount);
    sorted[..SliceEnd(|sorted|, limit)]
  }

  method GetValueFrequencies(h: Host, data: Dataset, columnName: string, limit: int) returns (frequencies: seq<ValueFrequency>)
    ensures frequencies == ValueFrequenciesOf(h, data.rows, columnName, limit)
  {
    var values := ColumnTexts(h, data.rows, columnName);
    var totalCount := |values|;
    var keys, counts := CountByKey(values);
    var entries := seq(|keys|, i requires 0 <= i < |keys| => WithPercentage(totalCount)((keys[i], counts[keys[i]])));
    assert entries == MapSeq(Entries(keys, values), WithPercentage(totalCount));
    var sorted := InsertionSort(entries, ValueByCount);
    frequencies := sorted[..SliceEnd(|sorted|, limit)];
  }

  /** Sorting the records is sorting the counted pairs. */
  lemma ValueFrequenciesAreCounts(h: Host, rows: seq<Row>, column: string, limit: int)
    ensures var texts := ColumnTexts(h, rows, column);
      var all := MapSeq(CountsByValue(texts), WithPercentage(|texts|));
      ValueFrequenciesOf(h, rows, column, limit) == all[..SliceEnd(|all|, limit)]
  {
    var texts := ColumnTexts(h, rows, column);
    InsertionSortMap(Entries(Distinct(texts), texts), ByCountDescending<string>(), WithPercentage(|texts|), ValueByCount);
  }

  /** A percentage is the share of the count in the total, rounded to two decimals. */
  lemma PercentageClose(e: (string, nat), total: nat)
    ensures var share := MediaAnalytics.Ratio(e.1 as real, total as real) * 100.0;
      share - 0.005 < WithPercentage(total)(e).percentage <= share + 0.005
  {
    RoundClose(MediaAnalytics.Ratio(e.1 as real, total as real) * 10000.0);
  }

  /** The property every returned record has. */
  ghost predicate IsValueFrequency(texts: seq<string>, f: ValueFrequency) {
    var share := MediaAnalytics.Ratio(f.count as real, |texts| as real) * 100.0;
    && f.value in texts && f.count == Occurrences(texts, f.value)
    && share - 0.005 < f.percentage <= share + 0.005
  }

  /** All the records before the cut. */
  lemma AllValueFrequencies(texts: seq<string>)
    ensures var all := MapSeq(CountsByValue(texts), WithPercentage(|texts|));
      && |all| == |Distinct(texts)|
      && (forall i, j :: 0 <= i < j < |all| ==> all[i].count >= all[j].count)
      && (forall i, j :: 0 <= i < j < |all| ==> all[i].value != all[j].value)
      && (forall i :: 0 <= i < |all| ==> IsValueFrequency(texts, all[i]))
  {
    var c := CountsByValue(texts);
    var all := MapSeq(c, WithPercentage(|texts|));
    PermutedEntriesCounts(c, texts);
    PermutedEntriesDistinct(c, texts);
    forall i | 0 <= i < |all|
      ensures IsValueFrequency(texts, all[i])
    {
      PercentageClose(c[i], |texts|);
    }
  }

  /** At most `limit` distinct values, most frequent first, each with its number of occurrences
    * and its percentage of the non-blank values to within 0.005. */
  lemma ValueFrequenciesSpec(h: Host, rows: seq<Row>, column: string, limit: int)
    ensures var texts := ColumnTexts(h, rows, column);
      var r := ValueFrequenciesOf(h, rows, column, limit);
      && |r| == SliceEnd(|Distinct(texts)|, limit)
      && (forall i, j :: 0 <= i < j < |r| ==> r[i].count >= r[j].count)
      && (forall i, j :: 0 <= i < j < |r| ==> r[i].value != r[j].value)
      && (forall i :: 0 <= i < |r| ==> IsValueFrequency(texts, r[i]))
  {
    ValueFrequenciesAreCounts(h, rows, column, limit);
    AllValueFrequencies(ColumnTexts(h, rows, column));
  }
}
