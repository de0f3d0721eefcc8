/**
 * Channel attribution (`normalizeMediaName`), lead counts per channel, day and month, and the
 * monthly and all-time cost reports that join the counts with the user's cost records.
 */
module MediaAnalytics {
  import opened Wrappers
  import opened JsText
  import opened Seqs
  import opened Sorting
  import opened Spreadsheet
  import opened MediaTypes
  import opened MediaAdStorage

  // ---------------------------------------------------------------------------------------
  // Channel attribution

  /** When the lower-cased answer contains one of `keywords`, the channel is `media`. */
  datatype KeywordRule = KeywordRule(keywords: seq<string>, media: string)

  /** The partial-match rules, tried in this order. */
  const KeywordRules: seq<KeywordRule> := [
    KeywordRule(["instagram", "インスタ"], "Instagram"),
    KeywordRule(["tiktok", "ティックトック"], "TikTok"),
    KeywordRule(["youtube", "ユーチューブ"], "YouTube"),
    KeywordRule(["lemon8", "レモン"], "Lemon8"),
    KeywordRule(["line", "ライン"], "LINE"),
    KeywordRule(["ラグジュアリー", "luxury"], "ラグジュアリーカード"),
    KeywordRule(["ホームページ", "hp", "web"], "ホームページ"),
    KeywordRule(["チラシ", "flyer"], "チラシ"),
    KeywordRule(["紹介", "その他"], "その他（紹介等）"),
    KeywordRule(["classy", "雑誌"], "CLASSY(雑誌)")
  ]

  predicate RuleMatches(lower: string, rule: KeywordRule) {
    exists k | 0 <= k < |rule.keywords| :: Includes(lower, rule.keywords[k])
  }

  /** The channel of the first rule that matches, if any. */
  function FirstMatchingRule(lower: string, rules: seq<KeywordRule>): Option<string>
    decreases |rules|
  {
    if rules == [] then None
    else if RuleMatches(lower, rules[0]) then Some(rules[0].media)
    else FirstMatchingRule(lower, rules[1..])
  }

  /** No channel comes out exactly when no rule matches. */
  lemma {:induction false} FirstMatchingRuleNone(lower: string, rules: seq<KeywordRule>)
    ensures FirstMatchingRule(lower, rules).None? <==> forall j :: 0 <= j < |rules| ==> !RuleMatches(lower, rules[j])
    decreases |rules|
  {
    if rules != [] {
      FirstMatchingRuleNone(lower, rules[1..]);
      assert forall j :: 1 <= j < |rules| ==> rules[j] == rules[1..][j - 1];
    }
  }

  /** The first matching rule decides, whatever later rules also match. */
  lemma {:induction false} FirstMatchingRuleWins(lower: string, rules: seq<KeywordRule>, k: nat)
    requires k < |rules| && RuleMatches(lower, rules[k])
    requires forall j :: 0 <= j < k ==> !RuleMatches(lower, rules[j])
    ensures FirstMatchingRule(lower, rules) == Some(rules[k].media)
    decreases k
  {
    if k > 0 {
      assert rules[1..][k - 1] == rules[k];
      FirstMatchingRuleWins(lower, rules[1..], k - 1);
    }
  }

  /** Every rule names one of the channels. */
  predicate RulesNameChannels(rules: seq<KeywordRule>) {
    forall k :: 0 <= k < |rules| ==> rules[k].media in MediaTypeNames
  }

  lemma {:induction false} FirstMatchingRuleIsChannel(lower: string, rules: seq<KeywordRule>)
    requires RulesNameChannels(rules)
    ensures FirstMatchingRule(lower, rules).Some? ==> FirstMatchingRule(lower, rules).value in MediaTypeNames
    decreases |rules|
  {
    if rules != [] && !RuleMatches(lower, rules[0]) {
      assert forall k :: 0 <= k < |rules| - 1 ==> rules[1..][k] == rules[k + 1];
      FirstMatchingRuleIsChannel(lower, rules[1..]);
    }
  }

  /** `normalizeMediaName`: the trimmed answer itself when it is a channel name, otherwise the
    * channel of the first keyword rule matching its lower-cased form, otherwise `null`. */
  function NormalizeMediaName(value: string): (r: Option<string>)
    ensures r.Some? ==> r.value in MediaTypeNames
  {
    var normalized := Trim(value);
    assert RulesNameChannels(KeywordRules);
    FirstMatchingRuleIsChannel(ToLower(normalized), KeywordRules);
    if normalized in MediaTypeNames then Some(normalized)
    else FirstMatchingRule(ToLower(normalized), KeywordRules)
  }

  /** Every channel name, with or without surrounding white space, is recognised as itself. */
  lemma NormalizeExactName(value: string, i: nat)
    requires i < |MediaTypeNames| && Trim(value) == MediaTypeNames[i]
    ensures NormalizeMediaName(value) == Some(MediaTypeNames[i])
  {
  }

  /** An answer that is not a channel name goes to the first rule matching it. */
  lemma NormalizeByKeyword(value: string, k: nat)
    requires Trim(value) !in MediaTypeNames
    requires k < |KeywordRules| && RuleMatches(ToLower(Trim(value)), KeywordRules[k])
    requires forall j :: 0 <= j < k ==> !RuleMatches(ToLower(Trim(value)), KeywordRules[j])
    ensures NormalizeMediaName(value) == Some(KeywordRules[k].media)
  {
    FirstMatchingRuleWins(ToLower(Trim(value)), KeywordRules, k);
  }

  /** `null` exactly when the answer is no channel name and no rule matches. */
  lemma NormalizeUnknown(value: string)
    ensures NormalizeMediaName(value).None? <==>
      Trim(value) !in MediaTypeNames && forall j :: 0 <= j < |KeywordRules| ==> !RuleMatches(ToLower(Trim(value)), KeywordRules[j])
  {
    FirstMatchingRuleNone(ToLower(Trim(value)), KeywordRules);
  }

  /** An answer naming both Instagram and LINE is attributed to Instagram, the earlier rule. */
  lemma InstagramBeforeLine()
    ensures NormalizeMediaName("instagram / line") == Some("Instagram")
  {
    var v := "instagram / line";
    TrimIdentity(v);
    var lower := ToLower(v);
    assert lower == v;
    assert KeywordRules[0].keywords[0] == "instagram";
    assert OccursAt(lower, "instagram", 0);
    assert Includes(lower, KeywordRules[0].keywords[0]);
    assert RuleMatches(lower, KeywordRules[0]);
    assert v !in MediaTypeNames;
    NormalizeByKeyword(v, 0);
  }

  /** `toLowerCase` turns the Kelvin sign into `k`, so `TI\u212ATOK` is found by the TikTok
    * keyword. */
  lemma KelvinSignAnswerIsTikTok()
    ensures NormalizeMediaName("TI\U{212A}TOK") == Some("TikTok")
  {
    var v := "TI\U{212A}TOK";
    TrimIdentity(v);
    var lower := ToLower(v);
    assert lower == "tiktok";
    assert v !in MediaTypeNames;
    assert !Includes(lower, "インスタ") by {
      if Includes(lower, "インスタ") {
        var i :| 0 <= i <= |lower| - 4 && OccursAt(lower, "インスタ", i);
        OccursAtStart(lower, "インスタ", i);
      }
    }
    assert !RuleMatches(lower, KeywordRules[0]);
    assert KeywordRules[1].keywords[0] == "tiktok";
    assert OccursAt(lower, "tiktok", 0);
    assert RuleMatches(lower, KeywordRules[1]);
    NormalizeByKeyword(v, 1);
  }

  // ---------------------------------------------------------------------------------------
  // Lead counts

  /** The channel of a row: `normalizeMediaName(String(row[mediaColumn]))`. */
  function RowChannel(row: Row, h: Host, mediaColumn: string): Option<string> {
    NormalizeMediaName(RawText(h, row, mediaColumn))
  }

  /** A lead of the channel on `date`: a non-empty string date whose date part is `date`. */
  predicate IsLeadOnDate(h: Host, row: Row, mediaType: string, date: string, dateColumn: string, mediaColumn: string) {
    StringValue(row, dateColumn).Some? && DatePart(StringValue(row, dateColumn).value) == date &&
    RowChannel(row, h, mediaColumn) == Some(mediaType)
  }

  /** A lead of the channel in the month: the date part starts with `yearMonth`. */
  predicate IsLeadInMonth(h: Host, row: Row, mediaType: string, yearMonth: string, dateColumn: string, mediaColumn: string) {
    StringValue(row, dateColumn).Some? && StartsWith(DatePart(StringValue(row, dateColumn).value), yearMonth) &&
    RowChannel(row, h, mediaColumn) == Some(mediaType)
  }

  function LeadOnDate(h: Host, mediaType: string, date: string, dateColumn: string, mediaColumn: string): Row -> bool {
    row => IsLeadOnDate(h, row, mediaType, date, dateColumn, mediaColumn)
  }

  function LeadInMonth(h: Host, mediaType: string, yearMonth: string, dateColumn: string, mediaColumn: string): Row -> bool {
    row => IsLeadInMonth(h, row, mediaType, yearMonth, dateColumn, mediaColumn)
  }

  /** A lead of the channel, whatever its date. */
  predicate IsLeadOfChannel(h: Host, row: Row, mediaType: string, mediaColumn: string) {
    RowChannel(row, h, mediaColumn) == Some(mediaType)
  }

  function LeadOfChannel(h: Host, mediaType: string, mediaColumn: string): Row -> bool {
    row => IsLeadOfChannel(h, row, mediaType, mediaColumn)
  }

  /** `normalizeMediaName(String(row[mediaColumn]))`, as the counting loops call it. */
  method NormalizeRowChannel(h: Host, row: Row, mediaColumn: string) returns (r: Option<string>)
    ensures r == RowChannel(row, h, mediaColumn)
  {
    r := NormalizeMediaName(RawText(h, row, mediaColumn));
  }

  /** `countLeadsByMediaAndDate` */
  method CountLeadsByMediaAndDate(h: Host, data: Dataset, mediaType: MediaType, date: string, dateColumn: string, mediaColumn: string)
    returns (count: nat)
    ensures count == Count(data.rows, LeadOnDate(h, mediaType, date, dateColumn, mediaColumn))
  {
    ghost var isLead := LeadOnDate(h, mediaType, date, dateColumn, mediaColumn);
    count := 0;
    for i := 0 to |data.rows|
      invariant count == Count(data.rows[..i], isLead)
    {
      var row := data.rows[i];
      CountStep(data.rows, i, isLead);
      var dateValue := StringValue(row, dateColumn);
      if dateValue.Some? {
        var datePart := DatePart(dateValue.value);
        if datePart == date {
          var normalizedMedia := NormalizeRowChannel(h, row, mediaColumn);
          if normalizedMedia == Some(mediaType) {
            count := count + 1;
          }
        }
      }
    }
    assert data.rows[..|data.rows|] == data.rows;
  }

  /** `countLeadsByMedia` */
  method CountLeadsByMedia(h: Host, data: Dataset, mediaType: MediaType, yearMonth: string, dateColumn: string, mediaColumn: string)
    returns (count: nat)
    ensures count == Count(data.rows, LeadInMonth(h, mediaType, yearMonth, dateColumn, mediaColumn))
  {
    ghost var isLead := LeadInMonth(h, mediaType, yearMonth, dateColumn, mediaColumn);
    count := 0;
    for i := 0 to |data.rows|
      invariant count == Count(data.rows[..i], isLead)
    {
      var row := data.rows[i];
      CountStep(data.rows, i, isLead);
      var dateValue := StringValue(row, dateColumn);
      if dateValue.Some? {
        var datePart := DatePart(dateValue.value);
        if StartsWith(datePart, yearMonth) {
          var normalizedMedia := NormalizeRowChannel(h, row, mediaColumn);
          if normalizedMedia == Some(mediaType) {
            count := count + 1;
          }
        }
      }
    }
    assert data.rows[..|data.rows|] == data.rows;
  }

  /** `countAllTimeLeadsByMedia`: no date condition at all. */
  method CountAllTimeLeadsByMedia(h: Host, data: Dataset, mediaType: MediaType, mediaColumn: string)
    returns (count: nat)
    ensures count == Count(data.rows, LeadOfChannel(h, mediaType, mediaColumn))
  {
    ghost var isLead := LeadOfChannel(h, mediaType, mediaColumn);
    count := 0;
    for i := 0 to |data.rows|
      invariant count == Count(data.rows[..i], isLead)
    {
      var row := data.rows[i];
      CountStep(data.rows, i, isLead);
      var normalizedMedia := NormalizeRowChannel(h, row, mediaColumn);
      if normalizedMedia == Some(mediaType) {
        count := count + 1;
      }
    }
    assert data.rows[..|data.rows|] == data.rows;
  }

  /** A day of the month counts no more leads than the month: the date part of a lead on
    * `date` starts with `yearMonth` whenever `date` does. */
  lemma DayWithinMonth(h: Host, data: Dataset, mediaType: MediaType, yearMonth: string, date: string, dateColumn: string, mediaColumn: string)
    requires StartsWith(date, yearMonth)
    ensures Count(data.rows, LeadOnDate(h, mediaType, date, dateColumn, mediaColumn)) <=
            Count(data.rows, LeadInMonth(h, mediaType, yearMonth, dateColumn, mediaColumn))
  {
    CountMonotonic(data.rows, LeadOnDate(h, mediaType, date, dateColumn, mediaColumn), LeadInMonth(h, mediaType, yearMonth, dateColumn, mediaColumn));
  }

  /** A month counts no more leads than all time. */
  lemma MonthWithinAllTime(h: Host, data: Dataset, mediaType: MediaType, yearMonth: string, dateColumn: string, mediaColumn: string)
    ensures Count(data.rows, LeadInMonth(h, mediaType, yearMonth, dateColumn, mediaColumn)) <=
            Count(data.rows, LeadOfChannel(h, mediaType, mediaColumn))
  {
    CountMonotonic(data.rows, LeadInMonth(h, mediaType, yearMonth, dateColumn, mediaColumn), LeadOfChannel(h, mediaType, mediaColumn));
  }

  // ---------------------------------------------------------------------------------------
  // The days of a month

  /** JavaScript `ToIntegerOrInfinity` on a finite number: truncation toward zero. */
  function Truncate(x: real): (r: int)
    ensures r as real <= x < r as real + 1.0 || r as real - 1.0 < x <= r as real
    ensures 0.0 <= x ==> 0 <= r
  {
    if x >= 0.0 then x.Floor else -((-x).Floor)
  }

  predicate IsLeapYear(y: int) {
    (y % 4 == 0 && y % 100 != 0) || y % 400 == 0
  }

  /** The number of days of month `m` (1 to 12) of year `y` in the proleptic Gregorian calendar. */
  function DaysInCalendarMonth(y: int, m: int): (r: nat)
    requires 1 <= m <= 12
    ensures 28 <= r <= 31
    ensures m == 2 ==> (r == 29 <==> IsLeapYear(y))
  {
    if m == 2 then (if IsLeapYear(y) then 29 else 28)
    else if m == 4 || m == 6 || m == 9 || m == 11 then 30
    else 31
  }

  /** `new Date(year, month, 0).getDate()` for numbers `year` and `month`: day 0 of the zero-based
    * month `month` is the last day of the one-based month `month`, so this is the number of days
    * of that month. A year from 0 to 99 means 1900 to 1999; a month outside 1 to 12 rolls over
    * into neighbouring years. */
  function DaysBeforeMonthZero(year: real, month: real): (r: nat)
    ensures 28 <= r <= 31
  {
    var yi := Truncate(year);
    var fullYear := if 0 <= yi <= 99 then 1900 + yi else yi;
    var monthIndex := fullYear * 12 + Truncate(month) - 1;
    DaysInCalendarMonth(monthIndex / 12, monthIndex % 12 + 1)
  }

  /** `generateMonthDates`' day count for `[year, month] = yearMonth.split('-').map(Number)`: a
    * missing or non-numeric part makes an invalid date, whose `getDate()` is `NaN`, and then no
    * day at all is generated. */
  function DaysInMonthOf(h: Host, yearMonth: string): (r: nat)
    ensures r <= 31
  {
    var pieces := Split(yearMonth, '-');
    if |pieces| < 2 then 0
    else
      match (h.toNumber(pieces[0]), h.toNumber(pieces[1]))
      case (Some(y), Some(m)) => DaysBeforeMonthZero(y, m)
      case _ => 0
  }

  /** A year from 100 on and a month from 1 to 12 name a calendar month directly. */
  lemma DaysBeforeMonthZeroPlain(y: int, m: int)
    requires 100 <= y && 1 <= m <= 12
    ensures DaysBeforeMonthZero(y as real, m as real) == DaysInCalendarMonth(y, m)
  {
    assert Truncate(y as real) == y;
    assert Truncate(m as real) == m;
    var monthIndex := y * 12 + m - 1;
    assert monthIndex == 12 * y + (m - 1) && 0 <= m - 1 < 12;
    assert monthIndex / 12 == y && monthIndex % 12 == m - 1;
  }

  /** A two-digit year `yy` is the year 19yy. */
  lemma DaysBeforeMonthZeroTwoDigitYear(y: int, m: int)
    requires 0 <= y <= 99 && 1 <= m <= 12
    ensures DaysBeforeMonthZero(y as real, m as real) == DaysInCalendarMonth(1900 + y, m)
  {
    assert Truncate(y as real) == y;
    assert Truncate(m as real) == m;
    var monthIndex := (1900 + y) * 12 + m - 1;
    assert monthIndex == 12 * (1900 + y) + (m - 1) && 0 <= m - 1 < 12;
    assert monthIndex / 12 == 1900 + y && monthIndex % 12 == m - 1;
  }

  /** Month 13 of a year is January of the next one, month 0 December of the previous one. */
  lemma DaysBeforeMonthZeroRollsOver(y: int)
    requires 100 <= y
    ensures DaysBeforeMonthZero(y as real, 13.0) == 31
    ensures y >= 101 ==> DaysBeforeMonthZero(y as real, 0.0) == 31
  {
    assert Truncate(y as real) == y;
    assert Truncate(13.0) == 13 && Truncate(0.0) == 0;
    assert (y * 12 + 12) / 12 == y + 1 && (y * 12 + 12) % 12 == 0;
    assert (y * 12 - 1) / 12 == y - 1 && (y * 12 - 1) % 12 == 11;
  }

  /** `${yearMonth}-${String(day).padStart(2, '0')}` */
  function MonthDate(yearMonth: string, day: nat): string {
    yearMonth + "-" + Pad2(day)
  }

  /** `generateMonthDates`: one `YYYY-MM-DD` date per day of the month, in order. */
  method GenerateMonthDates(h: Host, yearMonth: string) returns (dates: seq<string>)
    ensures |dates| == DaysInMonthOf(h, yearMonth)
    ensures forall k :: 0 <= k < |dates| ==> dates[k] == MonthDate(yearMonth, k + 1)
  {
    var daysInMonth := DaysInMonthOf(h, yearMonth);
    dates := [];
    var day := 1;
    while day <= daysInMonth
      invariant 1 <= day <= daysInMonth + 1
      invariant |dates| == day - 1
      invariant forall k :: 0 <= k < |dates| ==> dates[k] == MonthDate(yearMonth, k + 1)
    {
      dates := dates + [MonthDate(yearMonth, day)];
      day := day + 1;
    }
  }

  /** The dates of a month sort in day order, so no date is generated twice. */
  lemma MonthDatesAscending(yearMonth: string, d1: nat, d2: nat)
    requires d1 < d2 <= 31
    ensures StrLt(MonthDate(yearMonth, d1), MonthDate(yearMonth, d2))
    ensures MonthDate(yearMonth, d1) != MonthDate(yearMonth, d2)
  {
    Pad2Ordered(d1, d2);
    var p := yearMonth + "-";
    assert MonthDate(yearMonth, d1) == p + Pad2(d1);
    assert MonthDate(yearMonth, d2) == p + Pad2(d2);
    StrLtCommonPrefix(p, Pad2(d1), Pad2(d2));
    StrLtIrreflexive(MonthDate(yearMonth, d1));
  }

  /** Every date of the month starts with the month. */
  lemma MonthDateInMonth(yearMonth: string, d: nat)
    ensures StartsWith(MonthDate(yearMonth, d), yearMonth)
  {
    assert MonthDate(yearMonth, d)[..|yearMonth|] == yearMonth;
  }

  // ---------------------------------------------------------------------------------------
  // Daily lead counts

  /** `DailyLeadCount` */
  datatype DailyLeadCount = DailyLeadCount(date: string, leadCount: nat)

  /** `getDailyLeadCounts`: the lead count of every day of the month, day by day. */
  method GetDailyLeadCounts(h: Host, data: Dataset, mediaType: MediaType, yearMonth: string, dateColumn: string, mediaColumn: string)
    returns (counts: seq<DailyLeadCount>)
    ensures |counts| == DaysInMonthOf(h, yearMonth)
    ensures forall k :: 0 <= k < |counts| ==>
      counts[k].date == MonthDate(yearMonth, k + 1) &&
      counts[k].leadCount == Count(data.rows, LeadOnDate(h, mediaType, MonthDate(yearMonth, k + 1), dateColumn, mediaColumn))
  {
    var dates := GenerateMonthDates(h, yearMonth);
    counts := [];
    for i := 0 to |dates|
      invariant |counts| == i
      invariant forall k :: 0 <= k < i ==>
        counts[k].date == MonthDate(yearMonth, k + 1) &&
        counts[k].leadCount == Count(data.rows, LeadOnDate(h, mediaType, MonthDate(yearMonth, k + 1), dateColumn, mediaColumn))
    {
      var leadCount := CountLeadsByMediaAndDate(h, data, mediaType, dates[i], dateColumn, mediaColumn);
      counts := counts + [DailyLeadCount(dates[i], leadCount)];
    }
  }

  function TotalDailyLeads(counts: seq<DailyLeadCount>): nat {
    if counts == [] then 0 else TotalDailyLeads(counts[..|counts| - 1]) + counts[|counts| - 1].leadCount
  }

  function DatesOf(counts: seq<DailyLeadCount>): (r: seq<string>)
    ensures |r| == |counts| && forall k :: 0 <= k < |counts| ==> r[k] == counts[k].date
  {
    seq(|counts|, k requires 0 <= k < |counts| => counts[k].date)
  }

  /** The date part of a row that names the channel and has a string date. */
  function DayKey(h: Host, mediaType: MediaType, dateColumn: string, mediaColumn: string): Row -> Option<string> {
    row =>
      if StringValue(row, dateColumn).Some? && RowChannel(row, h, mediaColumn) == Some(mediaType)
      then Some(DatePart(StringValue(row, dateColumn).value))
      else None
  }

  lemma {:induction false} DailyTotalIsKeyCounts(h: Host, data: Dataset, mediaType: MediaType, dateColumn: string, mediaColumn: string, counts: seq<DailyLeadCount>)
    requires forall k :: 0 <= k < |counts| ==>
      counts[k].leadCount == Count(data.rows, LeadOnDate(h, mediaType, counts[k].date, dateColumn, mediaColumn))
    ensures TotalDailyLeads(counts) == SumOfKeyCounts(data.rows, DayKey(h, mediaType, dateColumn, mediaColumn), DatesOf(counts))
    decreases |counts|
  {
    if counts != [] {
      var init := counts[..|counts| - 1];
      var last := counts[|counts| - 1];
      DailyTotalIsKeyCounts(h, data, mediaType, dateColumn, mediaColumn, init);
      assert DatesOf(counts)[..|counts| - 1] == DatesOf(init);
      CountCongruent(data.rows, LeadOnDate(h, mediaType, last.date, dateColumn, mediaColumn), KeyIs(DayKey(h, mediaType, dateColumn, mediaColumn), last.date));
    }
  }

  /** A row keyed by one of the month's dates is a lead of that month. */
  lemma DayLeadInMonth(h: Host, mediaType: MediaType, yearMonth: string, dateColumn: string, mediaColumn: string, counts: seq<DailyLeadCount>, row: Row)
    requires forall k :: 0 <= k < |counts| ==> counts[k].date == MonthDate(yearMonth, k + 1)
    requires KeyIn(DayKey(h, mediaType, dateColumn, mediaColumn), DatesOf(counts))(row)
    ensures LeadInMonth(h, mediaType, yearMonth, dateColumn, mediaColumn)(row)
  {
    var date := DayKey(h, mediaType, dateColumn, mediaColumn)(row).value;
    var k :| 0 <= k < |counts| && DatesOf(counts)[k] == date;
    MonthDateInMonth(yearMonth, k + 1);
  }

  /** The dates of the first `n` days, as the daily counts carry them, are pairwise different. */
  lemma DailyDatesDistinct(yearMonth: string, counts: seq<DailyLeadCount>)
    requires |counts| <= 31
    requires forall k :: 0 <= k < |counts| ==> counts[k].date == MonthDate(yearMonth, k + 1)
    ensures forall i, j :: 0 <= i < j < |DatesOf(counts)| ==> DatesOf(counts)[i] != DatesOf(counts)[j]
  {
    forall i, j | 0 <= i < j < |counts| ensures counts[i].date != counts[j].date {
      MonthDatesAscending(yearMonth, i + 1, j + 1);
    }
  }

  /** The rows keyed by one of the month's dates are among the month's leads. */
  lemma DayKeysWithinMonth(h: Host, data: Dataset, mediaType: MediaType, yearMonth: string, dateColumn: string, mediaColumn: string, counts: seq<DailyLeadCount>)
    requires forall k :: 0 <= k < |counts| ==> counts[k].date == MonthDate(yearMonth, k + 1)
    ensures Count(data.rows, KeyIn(DayKey(h, mediaType, dateColumn, mediaColumn), DatesOf(counts))) <=
            Count(data.rows, LeadInMonth(h, mediaType, yearMonth, dateColumn, mediaColumn))
  {
    var keyed := KeyIn(DayKey(h, mediaType, dateColumn, mediaColumn), DatesOf(counts));
    var inMonth := LeadInMonth(h, mediaType, yearMonth, dateColumn, mediaColumn);
    forall row | row in data.rows && keyed(row) ensures inMonth(row) {
      DayLeadInMonth(h, mediaType, yearMonth, dateColumn, mediaColumn, counts, row);
    }
    CountMonotonic(data.rows, keyed, inMonth);
  }

  /** The daily counts of a month add up to at most the month's count: every day is a
    * different date of that month, so no lead is counted on two days. */
  lemma DailyLeadsWithinMonth(h: Host, data: Dataset, mediaType: MediaType, yearMonth: string, dateColumn: string, mediaColumn: string, counts: seq<DailyLeadCount>)
    requires |counts| <= 31
    requires forall k :: 0 <= k < |counts| ==>
      counts[k].date == MonthDate(yearMonth, k + 1) &&
      counts[k].leadCount == Count(data.rows, LeadOnDate(h, mediaType, MonthDate(yearMonth, k + 1), dateColumn, mediaColumn))
    ensures TotalDailyLeads(counts) <= Count(data.rows, LeadInMonth(h, mediaType, yearMonth, dateColumn, mediaColumn))
  {
    DailyTotalIsKeyCounts(h, data, mediaType, dateColumn, mediaColumn, counts);
    DailyDatesDistinct(yearMonth, counts);
    SumOfKeyCountsIsCount(data.rows, DayKey(h, mediaType, dateColumn, mediaColumn), DatesOf(counts));
    DayKeysWithinMonth(h, data, mediaType, yearMonth, dateColumn, mediaColumn, counts);
  }

  // ---------------------------------------------------------------------------------------
  // Reports

  /** `costs.reduce((sum, cost) => sum + cost.cost, 0)` */
  function TotalCost(costs: seq<DailyAdCost>): real {
    if costs == [] then 0.0 else TotalCost(costs[..|costs| - 1]) + costs[|costs| - 1].cost
  }

  /** `costs.reduce((sum, cost) => sum + cost.contractCount, 0)` */
  function TotalContracts(costs: seq<DailyAdCost>): real {
    if costs == [] then 0.0 else TotalContracts(costs[..|costs| - 1]) + costs[|costs| - 1].contractCount
  }

  /** `new Set(costs.map(cost => cost.date))` */
  function CostDates(costs: seq<DailyAdCost>): seq<string> {
    seq(|costs|, k requires 0 <= k < |costs| => costs[k].date)
  }

  /** `q` is what `b > 0 ? a / b : 0` yields: the quotient when `b` is positive, else zero. */
  predicate IsRatio(q: real, a: real, b: real) {
    if b > 0.0 then q * b == a else q == 0.0
  }

  /** `q` is what `b > 0 ? (a / b) * 100 : 0` yields. */
  predicate IsPercent(q: real, a: real, b: real) {
    if b > 0.0 then q * b == a * 100.0 else q == 0.0
  }

  function Ratio(a: real, b: real): (r: real)
    ensures IsRatio(r, a, b)
  {
    if b > 0.0 then a / b else 0.0
  }

  function Percent(a: real, b: real): (r: real)
    ensures IsPercent(r, a, b)
  {
    if b > 0.0 then
      var q := a / b;
      assert q * b == a;
      assert q * 100.0 * b == q * b * 100.0;
      q * 100.0
    else 0.0
  }

  /** `MonthlyMediaReport` */
  datatype MonthlyMediaReport = MonthlyMediaReport(
    yearMonth: string,
    mediaType: string,
    leadCount: nat,
    totalAdCost: real,
    totalContractCount: real,
    averageCostPerDay: real,
    contractRate: real,
    costPerLead: real,
    costPerContract: real)

  /**
   * `calculateMonthlyMediaReport`, given the list stored under the cost key: the month's leads of
   * the channel, its recorded costs and contracts for the month, and the ratios between them,
   * each zero when its denominator is.
   */
  function CalculateMonthlyMediaReport(h: Host, data: Dataset, stored: seq<DailyAdCost>, mediaType: MediaType, yearMonth: string, dateColumn: string, mediaColumn: string)
    : (r: MonthlyMediaReport)
    ensures r.yearMonth == yearMonth && r.mediaType == mediaType
    ensures r.leadCount == Count(data.rows, LeadInMonth(h, mediaType, yearMonth, dateColumn, mediaColumn))
    ensures r.totalAdCost == TotalCost(CostsOfMonthAndType(stored, yearMonth, mediaType))
    ensures r.totalContractCount == TotalContracts(CostsOfMonthAndType(stored, yearMonth, mediaType))
    ensures IsRatio(r.costPerLead, r.totalAdCost, r.leadCount as real)
    ensures IsPercent(r.contractRate, r.totalContractCount, r.leadCount as real)
    ensures IsRatio(r.costPerContract, r.totalAdCost, r.totalContractCount)
    ensures IsRatio(r.averageCostPerDay, r.totalAdCost, |Distinct(CostDates(CostsOfMonthAndType(stored, yearMonth, mediaType)))| as real)
  {
    var leadCount := Count(data.rows, LeadInMonth(h, mediaType, yearMonth, dateColumn, mediaColumn));
    var adCosts := CostsOfMonthAndType(stored, yearMonth, mediaType);
    var totalAdCost := TotalCost(adCosts);
    var totalContractCount := TotalContracts(adCosts);
    var daysCount := |Distinct(CostDates(adCosts))|;
    MonthlyMediaReport(
      yearMonth, mediaType, leadCount, totalAdCost, totalContractCount,
      Ratio(totalAdCost, daysCount as real),
      Percent(totalContractCount, leadCount as real),
      Ratio(totalAdCost, leadCount as real),
      Ratio(totalAdCost, totalContractCount))
  }

  /** `MonthlyOverallReport` */
  datatype MonthlyOverallReport = MonthlyOverallReport(
    yearMonth: string,
    mediaReports: seq<MonthlyMediaReport>,
    totalLeadCount: nat,
    totalAdCost: real,
    totalContractCount: real,
    overallContractRate: real,
    overallCostPerLead: real,
    overallCostPerContract: real)

  function SumLeads(reports: seq<MonthlyMediaReport>): nat {
    if reports == [] then 0 else SumLeads(reports[..|reports| - 1]) + reports[|reports| - 1].leadCount
  }

  function SumAdCost(reports: seq<MonthlyMediaReport>): real {
    if reports == [] then 0.0 else SumAdCost(reports[..|reports| - 1]) + reports[|reports| - 1].totalAdCost
  }

  function SumContracts(reports: seq<MonthlyMediaReport>): real {
    if reports == [] then 0.0 else SumContracts(reports[..|reports| - 1]) + reports[|reports| - 1].totalContractCount
  }

  /** `calculateMonthlyOverallReport`: one report per channel, in `MEDIA_TYPES` order, their
    * totals, and the overall ratios taken from the totals. */
  function CalculateMonthlyOverallReport(h: Host, data: Dataset, stored: seq<DailyAdCost>, yearMonth: string, dateColumn: string, mediaColumn: string)
    : (r: MonthlyOverallReport)
    ensures |r.mediaReports| == |MediaTypeNames|
    ensures forall k :: 0 <= k < |MediaTypeNames| ==>
      r.mediaReports[k] == CalculateMonthlyMediaReport(h, data, stored, MediaTypeNames[k], yearMonth, dateColumn, mediaColumn)
    ensures r.totalLeadCount == SumLeads(r.mediaReports)
    ensures r.totalAdCost == SumAdCost(r.mediaReports) && r.totalContractCount == SumContracts(r.mediaReports)
    ensures IsRatio(r.overallCostPerLead, r.totalAdCost, r.totalLeadCount as real)
    ensures IsPercent(r.overallContractRate, r.totalContractCount, r.totalLeadCount as real)
    ensures IsRatio(r.overallCostPerContract, r.totalAdCost, r.totalContractCount)
  {
    var reports := seq(|MediaTypeNames|, k requires 0 <= k < |MediaTypeNames| =>
      CalculateMonthlyMediaReport(h, data, stored, MediaTypeNames[k], yearMonth, dateColumn, mediaColumn));
    var totalLeadCount := SumLeads(reports);
    var totalAdCost := SumAdCost(reports);
    var totalContractCount := SumContracts(reports);
    MonthlyOverallReport(
      yearMonth, reports, totalLeadCount, totalAdCost, totalContractCount,
      Percent(totalContractCount, totalLeadCount as real),
      Ratio(totalAdCost, totalLeadCount as real),
      Ratio(totalAdCost, totalContractCount))
  }

  /** The channel of a row whose date falls in the month; `None` for the other rows. */
  function MonthChannelKey(h: Host, yearMonth: string, dateColumn: string, mediaColumn: string): Row -> Option<string> {
    row =>
      if StringValue(row, dateColumn).Some? && StartsWith(DatePart(StringValue(row, dateColumn).value), yearMonth)
      then RowChannel(row, h, mediaColumn)
      else None
  }

  lemma {:induction false} MonthlyLeadSumIsKeyCounts(h: Host, data: Dataset, yearMonth: string, dateColumn: string, mediaColumn: string, names: seq<string>, reports: seq<MonthlyMediaReport>)
    requires |reports| <= |names|
    requires forall k :: 0 <= k < |reports| ==>
      reports[k].leadCount == Count(data.rows, LeadInMonth(h, names[k], yearMonth, dateColumn, mediaColumn))
    ensures SumLeads(reports) == SumOfKeyCounts(data.rows, MonthChannelKey(h, yearMonth, dateColumn, mediaColumn), names[..|reports|])
    decreases |reports|
  {
    var n := |reports|;
    if n > 0 {
      var key := MonthChannelKey(h, yearMonth, dateColumn, mediaColumn);
      var m := names[n - 1];
      MonthlyLeadSumIsKeyCounts(h, data, yearMonth, dateColumn, mediaColumn, names, reports[..n - 1]);
      assert names[..n][..n - 1] == names[..n - 1];
      MonthChannelKeyIsLead(h, m, yearMonth, dateColumn, mediaColumn);
      CountCongruent(data.rows, LeadInMonth(h, m, yearMonth, dateColumn, mediaColumn), KeyIs(key, m));
    }
  }

  /** A row's monthly key is a channel exactly when the row is that channel's lead in the month. */
  lemma MonthChannelKeyIsLead(h: Host, mediaType: string, yearMonth: string, dateColumn: string, mediaColumn: string)
    ensures forall row ::
      LeadInMonth(h, mediaType, yearMonth, dateColumn, mediaColumn)(row) == KeyIs(MonthChannelKey(h, yearMonth, dateColumn, mediaColumn), mediaType)(row)
  {
  }

  /** A row names one channel at most, so the channels' monthly lead counts add up to the number
    * of the month's rows that name some channel, and never to more than the rows there are. */
  lemma MonthlyTotalCountsEachLeadOnce(h: Host, data: Dataset, stored: seq<DailyAdCost>, yearMonth: string, dateColumn: string, mediaColumn: string)
    ensures var key := MonthChannelKey(h, yearMonth, dateColumn, mediaColumn);
      CalculateMonthlyOverallReport(h, data, stored, yearMonth, dateColumn, mediaColumn).totalLeadCount == Count(data.rows, KeyIn(key, MediaTypeNames))
    ensures CalculateMonthlyOverallReport(h, data, stored, yearMonth, dateColumn, mediaColumn).totalLeadCount <= |data.rows|
  {
    var key := MonthChannelKey(h, yearMonth, dateColumn, mediaColumn);
    var r := CalculateMonthlyOverallReport(h, data, stored, yearMonth, dateColumn, mediaColumn);
    MonthlyLeadSumIsKeyCounts(h, data, yearMonth, dateColumn, mediaColumn, MediaTypeNames, r.mediaReports);
    assert MediaTypeNames[..|MediaTypeNames|] == MediaTypeNames;
    MediaTypeNamesDistinct();
    SumOfKeyCountsIsCount(data.rows, key, MediaTypeNames);
    CountBound(data.rows, KeyIn(key, MediaTypeNames));
  }

  /** `AllTimeMediaReport` */
  datatype AllTimeMediaReport = AllTimeMediaReport(
    mediaType: string,
    leadCount: nat,
    totalAdCost: real,
    totalContractCount: real,
    contractRate: real,
    costPerLead: real,
    costPerContract: real,
    monthCount: nat)

  /** `s.substring(0, 7)`: the `YYYY-MM` part of a `YYYY-MM-DD` date. */
  function Prefix7(s: string): (r: string)
    ensures StartsWith(s, r) && |r| <= 7
    ensures |s| >= 7 ==> |r| == 7
  {
    if |s| <= 7 then s else s[..7]
  }

  /** `costs.map(cost => cost.date.substring(0, 7))` */
  function CostMonths(costs: seq<DailyAdCost>): seq<string> {
    seq(|costs|, k requires 0 <= k < |costs| => Prefix7(costs[k].date))
  }

  lemma CostMonthsCover(costs: seq<DailyAdCost>)
    ensures forall c :: c in costs ==> Prefix7(c.date) in CostMonths(costs)
  {
    forall c | c in costs ensures Prefix7(c.date) in CostMonths(costs) {
      var k :| 0 <= k < |costs| && costs[k] == c;
      assert CostMonths(costs)[k] == Prefix7(c.date);
    }
  }

  /**
   * `calculateAllTimeMediaReport`, given the list stored under the cost key: the channel's leads
   * of every date, all of its recorded costs and contracts, the ratios between them, and the
   * number of distinct months among its cost records.
   */
  function CalculateAllTimeMediaReport(h: Host, data: Dataset, stored: seq<DailyAdCost>, mediaType: MediaType, mediaColumn: string)
    : (r: AllTimeMediaReport)
    ensures r.mediaType == mediaType
    ensures r.leadCount == Count(data.rows, LeadOfChannel(h, mediaType, mediaColumn))
    ensures r.totalAdCost == TotalCost(CostsOfType(stored, mediaType))
    ensures r.totalContractCount == TotalContracts(CostsOfType(stored, mediaType))
    ensures IsRatio(r.costPerLead, r.totalAdCost, r.leadCount as real)
    ensures IsPercent(r.contractRate, r.totalContractCount, r.leadCount as real)
    ensures IsRatio(r.costPerContract, r.totalAdCost, r.totalContractCount)
    ensures r.monthCount == |Distinct(CostMonths(CostsOfType(stored, mediaType)))|
  {
    var leadCount := Count(data.rows, LeadOfChannel(h, mediaType, mediaColumn));
    var mediaAdCosts := CostsOfType(stored, mediaType);
    var totalAdCost := TotalCost(mediaAdCosts);
    var totalContractCount := TotalContracts(mediaAdCosts);
    var months := CostMonths(mediaAdCosts);
    AllTimeMediaReport(
      mediaType, leadCount, totalAdCost, totalContractCount,
      Percent(totalContractCount, leadCount as real),
      Ratio(totalAdCost, leadCount as real),
      Ratio(totalAdCost, totalContractCount),
      |Distinct(months)|)
  }

  /** The month count is at most the number of the channel's cost records, and every record's
    * month is among the months counted. */
  lemma MonthCountBounds(h: Host, data: Dataset, stored: seq<DailyAdCost>, mediaType: MediaType, mediaColumn: string)
    ensures var r := CalculateAllTimeMediaReport(h, data, stored, mediaType, mediaColumn);
      r.monthCount <= |CostsOfType(stored, mediaType)| &&
      forall c :: c in CostsOfType(stored, mediaType) ==> Prefix7(c.date) in Distinct(CostMonths(CostsOfType(stored, mediaType)))
  {
    DistinctNoLonger(CostMonths(CostsOfType(stored, mediaType)));
    CostMonthsCover(CostsOfType(stored, mediaType));
  }

  /** `dateRange`: the earliest and the latest date part in string order, `''` without dates. */
  datatype DateRange = DateRange(start: string, end: string)

  /** `AllTimeOverallReport` */
  datatype AllTimeOverallReport = AllTimeOverallReport(
    mediaReports: seq<AllTimeMediaReport>,
    totalLeadCount: nat,
    totalAdCost: real,
    totalContractCount: real,
    overallContractRate: real,
    overallCostPerLead: real,
    overallCostPerContract: real,
    dateRange: DateRange)

  function SumAllTimeLeads(reports: seq<AllTimeMediaReport>): nat {
    if reports == [] then 0 else SumAllTimeLeads(reports[..|reports| - 1]) + reports[|reports| - 1].leadCount
  }

  function SumAllTimeAdCost(reports: seq<AllTimeMediaReport>): real {
    if reports == [] then 0.0 else SumAllTimeAdCost(reports[..|reports| - 1]) + reports[|reports| - 1].totalAdCost
  }

  function SumAllTimeContracts(reports: seq<AllTimeMediaReport>): real {
    if reports == [] then 0.0 else SumAllTimeContracts(reports[..|reports| - 1]) + reports[|reports| - 1].totalContractCount
  }

  /** The date parts of the rows whose date cell holds a string (the empty string included):
    * `rows.map(row => row[dateColumn]).filter(val => typeof val === 'string').map(v => v.split(' ')[0])`. */
  function StringDateParts(rows: seq<Row>, dateColumn: string): (r: seq<string>)
    ensures forall d :: d in r <==> exists row: Row :: row in rows && dateColumn in row && row[dateColumn].Str? && d == DatePart(row[dateColumn].text)
    decreases |rows|
  {
    if rows == [] then []
    else
      var init := rows[..|rows| - 1];
      var last := rows[|rows| - 1];
      var r := StringDateParts(init, dateColumn) +
        (if dateColumn in last && last[dateColumn].Str? then [DatePart(last[dateColumn].text)] else []);
      assert forall row :: row in rows <==> row in init || row == last;
      r
  }

  /** `{ start: sorted[0] || '', end: sorted[sorted.length - 1] || '' }` over the sorted dates. */
  function DateRangeOf(dates: seq<string>): (r: DateRange)
    ensures dates == [] ==> r == DateRange("", "")
    ensures dates != [] ==> r.start in dates && r.end in dates
  {
    if dates == [] then DateRange("", "")
    else
      var sorted := SortStrings(dates);
      assert sorted[0] in multiset(dates) && sorted[|sorted| - 1] in multiset(dates);
      DateRange(sorted[0], sorted[|sorted| - 1])
  }

  /** The range's start is no later, and its end no earlier, than any of the dates. */
  lemma DateRangeBounds(dates: seq<string>, d: string)
    requires d in dates
    ensures StrLe(DateRangeOf(dates).start, d) && StrLe(d, DateRangeOf(dates).end)
  {
    SortStringsEnds(dates, d);
  }

  /** `calculateAllTimeOverallReport`: one all-time report per channel, in `MEDIA_TYPES` order,
    * their totals, the overall ratios from the totals, and the span of the spreadsheet's dates. */
  function CalculateAllTimeOverallReport(h: Host, data: Dataset, stored: seq<DailyAdCost>, dateColumn: string, mediaColumn: string)
    : (r: AllTimeOverallReport)
    ensures |r.mediaReports| == |MediaTypeNames|
    ensures forall k :: 0 <= k < |MediaTypeNames| ==>
      r.mediaReports[k] == CalculateAllTimeMediaReport(h, data, stored, MediaTypeNames[k], mediaColumn)
    ensures r.totalLeadCount == SumAllTimeLeads(r.mediaReports)
    ensures r.totalAdCost == SumAllTimeAdCost(r.mediaReports) && r.totalContractCount == SumAllTimeContracts(r.mediaReports)
    ensures IsRatio(r.overallCostPerLead, r.totalAdCost, r.totalLeadCount as real)
    ensures IsPercent(r.overallContractRate, r.totalContractCount, r.totalLeadCount as real)
    ensures IsRatio(r.overallCostPerContract, r.totalAdCost, r.totalContractCount)
    ensures r.dateRange == DateRangeOf(StringDateParts(data.rows, dateColumn))
  {
    var reports := seq(|MediaTypeNames|, k requires 0 <= k < |MediaTypeNames| =>
      CalculateAllTimeMediaReport(h, data, stored, MediaTypeNames[k], mediaColumn));
    var totalLeadCount := SumAllTimeLeads(reports);
    var totalAdCost := SumAllTimeAdCost(reports);
    var totalContractCount := SumAllTimeContracts(reports);
    AllTimeOverallReport(
      reports, totalLeadCount, totalAdCost, totalContractCount,
      Percent(totalContractCount, totalLeadCount as real),
      Ratio(totalAdCost, totalLeadCount as real),
      Ratio(totalAdCost, totalContractCount),
      DateRangeOf(StringDateParts(data.rows, dateColumn)))
  }

  /** The channel of a row, any date: the key the all-time counts split on. */
  function ChannelKey(h: Host, mediaColumn: string): Row -> Option<string> {
    row => RowChannel(row, h, mediaColumn)
  }

  lemma ChannelKeyIsLead(h: Host, mediaType: string, mediaColumn: string)
    ensures forall row ::
      LeadOfChannel(h, mediaType, mediaColumn)(row) == KeyIs(ChannelKey(h, mediaColumn), mediaType)(row)
  {
  }

  lemma {:induction false} AllTimeLeadSumIsKeyCounts(h: Host, data: Dataset, mediaColumn: string, names: seq<string>, reports: seq<AllTimeMediaReport>)
    requires |reports| <= |names|
    requires forall k :: 0 <= k < |reports| ==>
      reports[k].leadCount == Count(data.rows, LeadOfChannel(h, names[k], mediaColumn))
    ensures SumAllTimeLeads(reports) == SumOfKeyCounts(data.rows, ChannelKey(h, mediaColumn), names[..|reports|])
    decreases |reports|
  {
    var n := |reports|;
    if n > 0 {
      var m := names[n - 1];
      AllTimeLeadSumIsKeyCounts(h, data, mediaColumn, names, reports[..n - 1]);
      assert names[..n][..n - 1] == names[..n - 1];
      ChannelKeyIsLead(h, m, mediaColumn);
      CountCongruent(data.rows, LeadOfChannel(h, m, mediaColumn), KeyIs(ChannelKey(h, mediaColumn), m));
    }
  }

  /** A row names one channel at most, so the channels' all-time lead counts add up to the
    * number of rows that name some channel, and never to more than the rows there are. */
  lemma AllTimeTotalCountsEachLeadOnce(h: Host, data: Dataset, stored: seq<DailyAdCost>, dateColumn: string, mediaColumn: string)
    ensures CalculateAllTimeOverallReport(h, data, stored, dateColumn, mediaColumn).totalLeadCount == Count(data.rows, KeyIn(ChannelKey(h, mediaColumn), MediaTypeNames))
    ensures CalculateAllTimeOverallReport(h, data, stored, dateColumn, mediaColumn).totalLeadCount <= |data.rows|
  {
    var key := ChannelKey(h, mediaColumn);
    var r := CalculateAllTimeOverallReport(h, data, stored, dateColumn, mediaColumn);
    assert forall k :: 0 <= k < |r.mediaReports| ==>
      r.mediaReports[k].leadCount == Count(data.rows, LeadOfChannel(h, MediaTypeNames[k], mediaColumn));
    AllTimeLeadSumIsKeyCounts(h, data, mediaColumn, MediaTypeNames, r.mediaReports);
    assert MediaTypeNames[..|MediaTypeNames|] == MediaTypeNames;
    MediaTypeNamesDistinct();
    SumOfKeyCountsIsCount(data.rows, key, MediaTypeNames);
    CountBound(data.rows, KeyIn(key, MediaTypeNames));
  }
}
