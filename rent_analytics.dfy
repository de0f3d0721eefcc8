/**
 * The desired-rent answers of the enquiry sheet: finding the rent column, reading an answer as
 * the upper limit of the price band it names, and the per-channel rent statistics.
 */
module RentAnalytics {
  import opened Wrappers
  import opened JsText
  import opened Seqs
  import opened Sorting
  import opened Spreadsheet
  import opened MediaTypes
  import opened MediaAnalytics

  /** A value of the conversion table: 0 marks an answer that names no amount. */
  type RentBand = n: int | n == 0 || 60000 <= n <= 500000

  /** Own-property lookup in an object literal given as its entries. */
  function TableLookup(table: seq<(string, RentBand)>, key: string): (r: Option<RentBand>)
    ensures r.None? <==> forall i :: 0 <= i < |table| ==> table[i].0 != key
    ensures r.Some? ==> exists i :: 0 <= i < |table| && table[i] == (key, r.value)
    decreases |table|
  {
    if table == [] then None
    else if table[0].0 == key then Some(table[0].1)
    else
      assert forall i :: 1 <= i < |table| ==> table[i] == table[1..][i - 1];
      TableLookup(table[1..], key)
  }

  // ---------------------------------------------------------------------------------------
  // The rent column

  /** `rentKeywords.some(keyword => header.includes(keyword))` */
  predicate IsRentHeader(header: string) {
    Includes(header, "希望家賃") || Includes(header, "希望家賃上限")
  }

  /** `headers[i]` is the first header naming the desired rent. */
  predicate IsFirstRentHeader(headers: seq<string>, i: int) {
    0 <= i < |headers| && IsRentHeader(headers[i]) && forall j :: 0 <= j < i ==> !IsRentHeader(headers[j])
  }

  /** `detectRentColumn`: the first header naming the desired rent, if any. */
  function DetectRentColumn(headers: seq<string>): (r: Option<string>)
    ensures r.None? <==> forall i :: 0 <= i < |headers| ==> !IsRentHeader(headers[i])
    ensures r.Some? ==> exists i :: IsFirstRentHeader(headers, i) && headers[i] == r.value
    decreases |headers|
  {
    if headers == [] then None
    else if IsRentHeader(headers[0]) then
      assert IsFirstRentHeader(headers, 0);
      Some(headers[0])
    else
      var r := DetectRentColumn(headers[1..]);
      assert forall i :: 1 <= i < |headers| ==> headers[i] == headers[1..][i - 1];
      if r.Some? then
        var i :| IsFirstRentHeader(headers[1..], i) && headers[1..][i] == r.value;
        assert IsFirstRentHeader(headers, i + 1);
        r
      else r
  }

  // ---------------------------------------------------------------------------------------
  // Amounts written with thousands separators

  /** The regular-expression group `\d{1,3}(?:,\d{3})*`: one to three digits, then groups of a
    * comma and three digits. */
  predicate IsGrouped(s: string)
    decreases |s|
  {
    if |s| <= 3 then 1 <= |s| && AllDigits(s)
    else |s| >= 5 && s[|s| - 4] == ',' && AllDigits(s[|s| - 3..]) && IsGrouped(s[..|s| - 4])
  }

  /** `parseInt(group.replace(/,/g, ''), 10)` */
  function GroupValue(g: string): Option<int> {
    ParseInt(RemoveChars(g, {','}))
  }

  /** A grouped amount starts with a digit and holds only digits and commas. */
  lemma {:induction false} GroupedChars(s: string)
    requires IsGrouped(s)
    ensures s != [] && IsDigit(s[0])
    ensures forall i :: 0 <= i < |s| ==> IsDigit(s[i]) || s[i] == ','
    decreases |s|
  {
    if |s| > 3 {
      var head, tail := s[..|s| - 4], s[|s| - 3..];
      GroupedChars(head);
      assert forall i :: 0 <= i < |s| - 4 ==> s[i] == head[i];
      assert forall i :: |s| - 3 <= i < |s| ==> s[i] == tail[i - (|s| - 3)];
    }
  }

  /** Without its commas a grouped amount is a non-empty digit string. */
  lemma {:induction false} GroupedDigits(s: string)
    requires IsGrouped(s)
    ensures RemoveChars(s, {','}) != [] && AllDigits(RemoveChars(s, {','}))
    decreases |s|
  {
    if |s| <= 3 {
      RemoveCharsAbsent(s, {','});
    } else {
      var head, tail := s[..|s| - 4], s[|s| - 3..];
      assert s == head + ([','] + tail);
      RemoveCharsAppend(head, [','] + tail, {','});
      RemoveCharsAppend([','], tail, {','});
      RemoveCharsAbsent(tail, {','});
      GroupedDigits(head);
    }
  }

  /** Three digits with leading zeros: the groups after the first. */
  function Pad3(n: nat): (r: string)
    requires n < 1000
    ensures |r| == 3 && AllDigits(r)
  {
    [('0' as int + n / 100) as char, ('0' as int + n / 10 % 10) as char, ('0' as int + n % 10) as char]
  }

  lemma Pad3Value(n: nat)
    requires n < 1000
    ensures DigitsValue(Pad3(n)) == n
  {
    var t := Pad3(n);
    var a, b, c := n / 100, n / 10 % 10, n % 10;
    assert n / 10 == a * 10 + b;
    assert n == (n / 10) * 10 + c;
    assert t[..2][..1] == [t[0]];
    assert DigitsValue(t[..2][..1]) == a;
    assert DigitsValue(t[..2]) == a * 10 + b;
    assert DigitsValue(t) == (a * 10 + b) * 10 + c;
  }

  /** `n.toLocaleString('en-US')` for a natural number: digits grouped by three with commas. */
  function GroupedText(n: nat): string
    decreases n
  {
    if n < 1000 then NatText(n) else GroupedText(n / 1000) + "," + Pad3(n % 1000)
  }

  /** A grouped amount followed by a comma and three digits is a grouped amount, and its digits
    * are those of the two parts. */
  lemma GroupedExtend(head: string, tail: string)
    requires IsGrouped(head) && |tail| == 3 && AllDigits(tail)
    ensures IsGrouped(head + "," + tail)
    ensures RemoveChars(head + "," + tail, {','}) == RemoveChars(head, {','}) + tail
  {
    var s := head + "," + tail;
    assert s[..|s| - 4] == head && s[|s| - 3..] == tail;
    assert s == head + ([','] + tail);
    RemoveCharsAppend(head, [','] + tail, {','});
    RemoveCharsAppend([','], tail, {','});
    RemoveCharsAbsent(tail, {','});
  }

  /** Appending three digits multiplies the value by 1000 and adds theirs. */
  lemma AppendThreeDigits(digits: string, tail: string)
    requires digits != [] && AllDigits(digits) && |tail| == 3 && AllDigits(tail)
    ensures ParseInt(digits + tail) == Some(DigitsValue(digits) * 1000 + DigitsValue(tail))
  {
    DigitsValueAppend(digits, tail);
    assert Pow10(3) == 1000;
    ParseIntOfDigits(digits + tail);
  }

  /** Every amount written with separators is a grouped amount and reads back as itself. */
  lemma {:induction false} GroupedTextRoundTrip(n: nat)
    ensures IsGrouped(GroupedText(n))
    ensures GroupValue(GroupedText(n)) == Some(n)
    decreases n
  {
    if n < 1000 {
      var s := NatText(n);
      NatTextValue(n);
      RemoveCharsAbsent(s, {','});
      ParseIntOfDigits(s);
    } else {
      var head, tail := GroupedText(n / 1000), Pad3(n % 1000);
      GroupedTextRoundTrip(n / 1000);
      GroupedExtend(head, tail);
      GroupedDigits(head);
      var digits := RemoveChars(head, {','});
      ParseIntOfDigits(digits);
      Pad3Value(n % 1000);
      AppendThreeDigits(digits, tail);
    }
  }

  // ---------------------------------------------------------------------------------------
  // The three answer formats of the price-band choices

  /** `/^~(\d{1,3}(?:,\d{3})*)円$/`: the captured amount of `~150,000円`. */
  function UpToPattern(t: string): Option<string> {
    if |t| >= 2 && t[0] == '~' && t[|t| - 1] == '円' && IsGrouped(t[1..|t| - 1]) then Some(t[1..|t| - 1])
    else None
  }

  /** The up-to pattern captures `g` exactly when the answer is `~`, the grouped amount `g`, `円`. */
  lemma UpToPatternIsRegex(t: string, g: string)
    ensures UpToPattern(t) == Some(g) <==> IsGrouped(g) && t == "~" + g + "円"
  {
    if t == "~" + g + "円" {
      assert t[1..|t| - 1] == g;
    }
  }

  /** `/^(\d{1,3}(?:,\d{3})*)~(\d{1,3}(?:,\d{3})*)円$/`: the captured upper amount of
    * `251,000~300,000円`. Neither amount contains `~`, so the first `~` separates them. */
  function RangePattern(t: string): Option<string> {
    if |t| >= 1 && t[|t| - 1] == '円' then
      var body := t[..|t| - 1];
      var lower := BeforeFirst(body, '~');
      if |lower| < |body| && IsGrouped(lower) && IsGrouped(body[|lower| + 1..]) then Some(body[|lower| + 1..])
      else None
    else None
  }

  /** The regular expression's own reading: some `~` splits the answer before `円` into two
    * grouped amounts, and the second is captured. */
  ghost predicate RangeMatch(t: string, upper: string) {
    exists i :: 0 <= i < |t| - 1 && t[i] == '~' && t[|t| - 1] == '円' &&
      IsGrouped(t[..i]) && IsGrouped(t[i + 1..|t| - 1]) && upper == t[i + 1..|t| - 1]
  }

  /** What the range pattern captures, the regular expression matches. */
  lemma RangePatternSound(t: string)
    requires RangePattern(t).Some?
    ensures RangeMatch(t, RangePattern(t).value)
  {
    var body := t[..|t| - 1];
    var i := |BeforeFirst(body, '~')|;
    assert t[..i] == body[..i];
    assert t[i + 1..|t| - 1] == body[i + 1..];
  }

  /** Whatever the regular expression matches, the range pattern captures. */
  lemma RangePatternComplete(t: string, i: int)
    requires 0 <= i < |t| - 1 && t[i] == '~' && t[|t| - 1] == '円'
    requires IsGrouped(t[..i]) && IsGrouped(t[i + 1..|t| - 1])
    ensures RangePattern(t) == Some(t[i + 1..|t| - 1])
  {
    var body := t[..|t| - 1];
    GroupedChars(t[..i]);
    assert forall k :: 0 <= k < i ==> body[k] == t[..i][k];
    BeforeFirstAt(body, '~', i);
    assert body[..i] == t[..i];
    assert body[i + 1..] == t[i + 1..|t| - 1];
  }

  /** The range pattern captures `upper` exactly when the regular expression matches with it. */
  lemma RangePatternIsRegex(t: string, upper: string)
    ensures RangePattern(t) == Some(upper) <==> RangeMatch(t, upper)
  {
    if RangePattern(t) == Some(upper) {
      RangePatternSound(t);
    }
    if RangeMatch(t, upper) {
      var i :| 0 <= i < |t| - 1 && t[i] == '~' && t[|t| - 1] == '円' &&
        IsGrouped(t[..i]) && IsGrouped(t[i + 1..|t| - 1]) && upper == t[i + 1..|t| - 1];
      RangePatternComplete(t, i);
    }
  }

  /** `/^(\d{1,3}(?:,\d{3})*)円~$/`: the top band, `401,000円~`. */
  predicate FromPattern(t: string) {
    |t| >= 2 && t[|t| - 2..] == "円~" && IsGrouped(t[..|t| - 2])
  }

  // ---------------------------------------------------------------------------------------
  // Reading an answer

  /** `RentParseResult`: the amount when the answer names one, and the answer itself. */
  datatype RentParseResult = RentParseResult(value: Option<int>, original: string, isValid: bool)

  function Invalid(original: string): RentParseResult {
    RentParseResult(None, original, false)
  }

  function Valid(v: int, original: string): RentParseResult {
    RentParseResult(Some(v), original, true)
  }

  /** The three price-band formats, tried in order on a trimmed answer that is not in the table:
    * `~X円` gives X, `X~Y円` gives Y (each only when positive), `X円~` gives 500,000. */
  function ParseBandFormats(trimmed: string, original: string): (r: RentParseResult)
    ensures r.original == original
    ensures r.isValid <==> r.value.Some?
    ensures r.isValid ==> r.value.value > 0
  {
    var upTo := UpToPattern(trimmed);
    var upToValue := if upTo.Some? then GroupValue(upTo.value) else None;
    if upToValue.Some? && upToValue.value > 0 then Valid(upToValue.value, original)
    else
      var range := RangePattern(trimmed);
      var upperValue := if range.Some? then GroupValue(range.value) else None;
      if upperValue.Some? && upperValue.value > 0 then Valid(upperValue.value, original)
      else if FromPattern(trimmed) then Valid(500000, original)
      else Invalid(original)
  }

  /**
   * `parseRentValue` against a conversion table: a blank answer is invalid; an answer found in the
   * table is valid with the band's upper limit unless the table maps it to 0; any other answer is
   * read by the price-band formats. Only the table's own entries are looked up.
   */
  function ParseRentValueWith(table: seq<(string, RentBand)>, value: string): (r: RentParseResult)
    ensures r.original == value
    ensures r.isValid <==> r.value.Some?
    ensures r.isValid ==> r.value.value > 0
  {
    var trimmed := Trim(value);
    if trimmed == "" then Invalid(value)
    else
      match TableLookup(table, trimmed)
      case Some(converted) => if converted == 0 then Invalid(value) else Valid(converted, value)
      case None => ParseBandFormats(trimmed, value)
  }

  /** Blank answers are never valid. */
  lemma BlankIsInvalid(table: seq<(string, RentBand)>, value: string)
    requires AllSpace(value)
    ensures ParseRentValueWith(table, value) == Invalid(value)
  {
    TrimEmptyIffAllSpace(value);
  }

  /** A trimmed answer found in the table gives the table's value; the 0 entries are invalid. */
  lemma TableAnswer(table: seq<(string, RentBand)>, value: string, band: RentBand)
    requires Trim(value) != "" && TableLookup(table, Trim(value)) == Some(band)
    ensures ParseRentValueWith(table, value) == if band == 0 then Invalid(value) else Valid(band, value)
    ensures ParseRentValueWith(table, value).isValid ==> 60000 <= ParseRentValueWith(table, value).value.value <= 500000
  {
  }

  /** Surrounding whitespace does not change how an answer is read. */
  lemma TrimmedAnswerReadsAlike(table: seq<(string, RentBand)>, value: string)
    ensures ParseRentValueWith(table, Trim(value)).value == ParseRentValueWith(table, value).value
    ensures ParseRentValueWith(table, Trim(value)).isValid == ParseRentValueWith(table, value).isValid
  {
    TrimSpec(value);
    TrimIdentity(Trim(value));
  }

  /** An answer without surrounding whitespace that is not in the table is read by the formats. */
  lemma ReadByFormats(table: seq<(string, RentBand)>, t: string)
    requires t != [] && !IsSpace(t[0]) && !IsSpace(t[|t| - 1])
    requires TableLookup(table, t).None?
    ensures ParseRentValueWith(table, t) == ParseBandFormats(t, t)
  {
    TrimIdentity(t);
  }

  /** An answer that is no `~X円` answer and whose range pattern captures a positive `Y` reads as Y. */
  lemma RangeFormatReads(t: string, original: string, upper: string, n: int)
    requires t != [] && t[0] != '~' && RangePattern(t) == Some(upper) && GroupValue(upper) == Some(n) && n > 0
    ensures ParseBandFormats(t, original) == Valid(n, original)
  {
    assert UpToPattern(t).None?;
  }

  /** Every `~X円` answer outside the table reads as X, for every positive X written with separators. */
  lemma UpToFormatRoundTrip(table: seq<(string, RentBand)>, n: nat)
    requires n > 0
    requires TableLookup(table, "~" + GroupedText(n) + "円").None?
    ensures var t := "~" + GroupedText(n) + "円"; ParseRentValueWith(table, t) == Valid(n, t)
  {
    var t := "~" + GroupedText(n) + "円";
    GroupedTextRoundTrip(n);
    ReadByFormats(table, t);
    assert t[1..|t| - 1] == GroupedText(n);
  }

  /** A `X~Y円` answer of two grouped amounts outside the table reads as Y when Y is positive. */
  lemma RangeAnswer(table: seq<(string, RentBand)>, lower: string, upper: string, n: int)
    requires IsGrouped(lower) && IsGrouped(upper) && GroupValue(upper) == Some(n) && n > 0
    requires TableLookup(table, lower + "~" + upper + "円").None?
    ensures var t := lower + "~" + upper + "円"; ParseRentValueWith(table, t) == Valid(n, t)
  {
    var t := lower + "~" + upper + "円";
    GroupedChars(lower);
    assert t[0] == lower[0];
    ReadByFormats(table, t);
    assert t[..|lower|] == lower;
    assert t[|lower| + 1..|t| - 1] == upper;
    RangePatternComplete(t, |lower|);
    RangeFormatReads(t, t, upper, n);
  }

  /** Every `X~Y円` answer outside the table reads as its upper amount Y, whatever X is. */
  lemma RangeFormatRoundTrip(table: seq<(string, RentBand)>, lower: nat, n: nat)
    requires n > 0
    requires TableLookup(table, GroupedText(lower) + "~" + GroupedText(n) + "円").None?
    ensures var t := GroupedText(lower) + "~" + GroupedText(n) + "円"; ParseRentValueWith(table, t) == Valid(n, t)
  {
    GroupedTextRoundTrip(lower);
    GroupedTextRoundTrip(n);
    RangeAnswer(table, GroupedText(lower), GroupedText(n), n);
  }

  /** Every `X円~` answer outside the table reads as the top limit, 500,000 yen, whatever X is. */
  lemma FromFormatIsTop(table: seq<(string, RentBand)>, n: nat)
    requires TableLookup(table, GroupedText(n) + "円~").None?
    ensures var t := GroupedText(n) + "円~"; ParseRentValueWith(table, t) == Valid(500000, t)
  {
    var a := GroupedText(n);
    var t := a + "円~";
    GroupedTextRoundTrip(n);
    GroupedChars(a);
    assert t[0] == a[0];
    ReadByFormats(table, t);
    assert t[..|t| - 2] == a;
    assert UpToPattern(t).None?;
    assert RangePattern(t).None?;
  }

  /** An answer outside the table that fits none of the three formats is invalid. */
  lemma UnknownAnswerIsInvalid(table: seq<(string, RentBand)>, value: string)
    requires TableLookup(table, Trim(value)).None?
    requires UpToPattern(Trim(value)).None? && RangePattern(Trim(value)).None? && !FromPattern(Trim(value))
    ensures ParseRentValueWith(table, value) == Invalid(value)
  {
  }

  // ---------------------------------------------------------------------------------------
  // The `in` test as written

  /** The property names every object literal inherits from `Object.prototype`, which the `in`
    * operator also finds. */
  const ObjectPrototypeMembers: set<string> := {
    "constructor", "__defineGetter__", "__defineSetter__", "hasOwnProperty", "__lookupGetter__",
    "__lookupSetter__", "isPrototypeOf", "propertyIsEnumerable", "toString", "valueOf",
    "__proto__", "toLocaleString"
  }

  /** A value read out of the conversion object: a table amount, or an inherited member (a
    * function, or `Object.prototype` itself for `__proto__`). */
  datatype JsRentValue = RentNumber(amount: int) | InheritedMember(name: string)

  datatype JsRentParseResult = JsRentParseResult(value: Option<JsRentValue>, original: string, isValid: bool)

  function AsJs(r: RentParseResult): JsRentParseResult {
    JsRentParseResult(if r.value.Some? then Some(RentNumber(r.value.value)) else None, r.original, r.isValid)
  }

  /** `parseRentValue` as written: `trimmed in RENT_CONVERSION_MAP` also holds for the inherited
    * names, whose value is not `0`, so they come back valid with that member as the value. */
  function ParseRentValueAsWritten(table: seq<(string, RentBand)>, value: string): (r: JsRentParseResult)
    ensures r.original == value
  {
    var trimmed := Trim(value);
    if trimmed == "" then JsRentParseResult(None, value, false)
    else
      match TableLookup(table, trimmed)
      case Some(converted) =>
        if converted == 0 then JsRentParseResult(None, value, false)
        else JsRentParseResult(Some(RentNumber(converted)), value, true)
      case None =>
        if trimmed in ObjectPrototypeMembers then JsRentParseResult(Some(InheritedMember(trimmed)), value, true)
        else AsJs(ParseBandFormats(trimmed, value))
  }

  /** No inherited name looks like a price band. */
  lemma InheritedNamesAreNoBands(t: string)
    requires t in ObjectPrototypeMembers
    ensures UpToPattern(t).None? && RangePattern(t).None? && !FromPattern(t)
  {
  }

  /** The counterexample: an answer such as `toString` passes as a valid rent whose value is not a
    * number, where the own-property reading rejects it. */
  lemma InheritedNameAcceptedAsWritten(table: seq<(string, RentBand)>, value: string)
    requires Trim(value) in ObjectPrototypeMembers && TableLookup(table, Trim(value)).None?
    ensures ParseRentValueAsWritten(table, value).isValid
    ensures ParseRentValueAsWritten(table, value).value == Some(InheritedMember(Trim(value)))
    ensures ParseRentValueWith(table, value) == Invalid(value)
  {
    InheritedNamesAreNoBands(Trim(value));
  }

  /** On every other answer the code as written and the own-property reading agree. */
  lemma AsWrittenAgreesElsewhere(table: seq<(string, RentBand)>, value: string)
    requires Trim(value) !in ObjectPrototypeMembers
    ensures ParseRentValueAsWritten(table, value) == AsJs(ParseRentValueWith(table, value))
  {
  }

  // ---------------------------------------------------------------------------------------
  // analyzeRent

  /** `RentResponseDetail` */
  datatype RentResponseDetail = RentResponseDetail(date: string, rentValue: int, originalValue: string, petType: string)

  /** `RentAnalysis` */
  datatype RentAnalysis = RentAnalysis(
    rentValues: seq<int>,
    responses: seq<RentResponseDetail>,
    averageRent: real,
    medianRent: int,
    minRent: int,
    maxRent: int,
    validCount: nat,
    invalidCount: int)

  /** A response counted for the channel and period: its channel normalises to `mediaType`, and
    * unless the period is `all-time` its date part starts with `yearMonth`. */
  predicate IsRentRow(h: Host, row: Row, mediaType: string, yearMonth: string, dateColumn: string, mediaColumn: string) {
    NormalizeMediaName(TextOrEmpty(h, row, mediaColumn)) == Some(mediaType) &&
    (yearMonth == "all-time" || StartsWith(DatePart(TextOrEmpty(h, row, dateColumn)), yearMonth))
  }

  function RentRow(h: Host, mediaType: string, yearMonth: string, dateColumn: string, mediaColumn: string): Row -> bool {
    row => IsRentRow(h, row, mediaType, yearMonth, dateColumn, mediaColumn)
  }

  /** One selected response: its reading, its date part and its pet answer. */
  datatype ParsedResponse = ParsedResponse(parse: RentParseResult, date: string, petType: string)

  function ParseResponse(h: Host, table: seq<(string, RentBand)>, row: Row, rentColumn: string, dateColumn: string, petColumn: string): ParsedResponse {
    ParsedResponse(
      ParseRentValueWith(table, TextOrEmpty(h, row, rentColumn)),
      DatePart(TextOrEmpty(h, row, dateColumn)),
      TextOrEmpty(h, row, petColumn))
  }

  function ParseResponses(h: Host, table: seq<(string, RentBand)>, rows: seq<Row>, rentColumn: string, dateColumn: string, petColumn: string): (r: seq<ParsedResponse>)
    ensures |r| == |rows|
    ensures forall i :: 0 <= i < |rows| ==> r[i] == ParseResponse(h, table, rows[i], rentColumn, dateColumn, petColumn)
  {
    seq(|rows|, i requires 0 <= i < |rows| => ParseResponse(h, table, rows[i], rentColumn, dateColumn, petColumn))
  }

  /** `r.parseResult.isValid && r.parseResult.value !== null` */
  predicate IsUsable(p: ParsedResponse) {
    p.parse.isValid && p.parse.value.Some?
  }

  /** `parseResults.filter(…)`: the responses with an amount, in order. */
  function UsableResponses(parsed: seq<ParsedResponse>): (r: seq<ParsedResponse>)
    ensures |r| == Count(parsed, IsUsable)
    ensures forall i :: 0 <= i < |r| ==> r[i] in parsed && IsUsable(r[i])
  {
    CountIsFilterLength(parsed, IsUsable);
    var r := Filter(parsed, IsUsable);
    assert forall i :: 0 <= i < |r| ==> r[i] in r;
    r
  }

  /** `validResults.map(r => r.parseResult.value)` */
  function Amounts(usable: seq<ParsedResponse>): (r: seq<int>)
    requires forall i :: 0 <= i < |usable| ==> IsUsable(usable[i])
    ensures |r| == |usable|
    ensures forall i :: 0 <= i < |usable| ==> IsUsable(usable[i]) && r[i] == usable[i].parse.value.value
  {
    seq(|usable|, i requires 0 <= i < |usable| && IsUsable(usable[i]) => usable[i].parse.value.value)
  }

  /** `validResults.map(r => ({date, rentValue, originalValue, petType}))` */
  function Details(usable: seq<ParsedResponse>): (r: seq<RentResponseDetail>)
    requires forall i :: 0 <= i < |usable| ==> IsUsable(usable[i])
    ensures |r| == |usable|
    ensures forall i :: 0 <= i < |usable| ==>
      IsUsable(usable[i]) &&
      r[i] == RentResponseDetail(usable[i].date, usable[i].parse.value.value, usable[i].parse.original, usable[i].petType)
  {
    seq(|usable|, i requires 0 <= i < |usable| && IsUsable(usable[i]) =>
      RentResponseDetail(usable[i].date, usable[i].parse.value.value, usable[i].parse.original, usable[i].petType))
  }

  /** The statistics of the valid amounts: average, upper median, minimum and maximum, all 0
    * when there is none. */
  function RentStats(values: seq<int>): (real, int, int, int) {
    if values == [] then (0.0, 0, 0, 0)
    else (Ratio(Sum(values) as real, |values| as real), SortInts(values)[|values| / 2], Min(values), Max(values))
  }

  /** A reading as `parseRentValue` returns it: valid exactly with an amount, which is positive. */
  predicate IsWellRead(p: ParsedResponse) {
    (p.parse.isValid <==> p.parse.value.Some?) && (p.parse.isValid ==> p.parse.value.value > 0)
  }

  /** The selected rows of the channel and period, each read. */
  function SelectedResponses(h: Host, table: seq<(string, RentBand)>, rows: seq<Row>, mediaType: MediaType, yearMonth: string,
                             rentColumn: string, dateColumn: string, mediaColumn: string, petColumn: string): (r: seq<ParsedResponse>)
    ensures |r| == Count(rows, RentRow(h, mediaType, yearMonth, dateColumn, mediaColumn))
    ensures forall i :: 0 <= i < |r| ==> IsWellRead(r[i])
  {
    var select := RentRow(h, mediaType, yearMonth, dateColumn, mediaColumn);
    CountIsFilterLength(rows, select);
    ParseResponses(h, table, Filter(rows, select), rentColumn, dateColumn, petColumn)
  }

  /** The analysis of the read responses: the valid amounts, their details and statistics, and the
    * number of valid and invalid responses. */
  function Summarise(parsed: seq<ParsedResponse>): RentAnalysis {
    var usable := UsableResponses(parsed);
    var rentValues := Amounts(usable);
    var stats := RentStats(rentValues);
    RentAnalysis(rentValues, if rentValues == [] then [] else Details(usable),
      stats.0, stats.1, stats.2, stats.3, |rentValues|, |parsed| - |rentValues|)
  }

  /** `analyzeRent` against a conversion table; `None` is `null`. */
  function AnalyzeRentWith(h: Host, table: seq<(string, RentBand)>, data: Dataset, mediaType: MediaType, yearMonth: string,
                           dateColumn: string, mediaColumn: string, petColumn: string): Option<RentAnalysis>
  {
    var rentColumn := DetectRentColumn(data.headers);
    if rentColumn.None? then None
    else Some(Summarise(SelectedResponses(h, table, data.rows, mediaType, yearMonth, rentColumn.value, dateColumn, mediaColumn, petColumn)))
  }

  /** There is an analysis exactly when some header names the desired rent. */
  lemma AnalyzeRentNeedsRentColumn(h: Host, table: seq<(string, RentBand)>, data: Dataset, mediaType: MediaType, yearMonth: string,
                                   dateColumn: string, mediaColumn: string, petColumn: string)
    ensures AnalyzeRentWith(h, table, data, mediaType, yearMonth, dateColumn, mediaColumn, petColumn).None? <==>
      forall i :: 0 <= i < |data.headers| ==> !IsRentHeader(data.headers[i])
  {
  }

  /** Every read response is counted once, as valid or as invalid; the valid amounts are positive,
    * and each response detail carries its amount. */
  lemma SummaryCounts(parsed: seq<ParsedResponse>)
    requires forall i :: 0 <= i < |parsed| ==> IsWellRead(parsed[i])
    ensures var a := Summarise(parsed);
      a.validCount + a.invalidCount == |parsed| && 0 <= a.invalidCount &&
      a.validCount == Count(parsed, IsUsable) == |a.rentValues| == |a.responses| &&
      forall i :: 0 <= i < |a.rentValues| ==> a.rentValues[i] > 0 && a.responses[i].rentValue == a.rentValues[i]
  {
    var usable := UsableResponses(parsed);
    CountBound(parsed, IsUsable);
    forall i | 0 <= i < |usable|
      ensures usable[i].parse.value.value > 0
    {
      var k :| 0 <= k < |parsed| && parsed[k] == usable[i];
      assert IsWellRead(parsed[k]);
    }
  }

  /** The analysis counts each response of the channel and period once, as valid or as invalid. */
  lemma AnalyzeRentCounts(h: Host, table: seq<(string, RentBand)>, data: Dataset, mediaType: MediaType, yearMonth: string,
                          dateColumn: string, mediaColumn: string, petColumn: string)
    requires AnalyzeRentWith(h, table, data, mediaType, yearMonth, dateColumn, mediaColumn, petColumn).Some?
    ensures var a := AnalyzeRentWith(h, table, data, mediaType, yearMonth, dateColumn, mediaColumn, petColumn).value;
      a.validCount + a.invalidCount == Count(data.rows, RentRow(h, mediaType, yearMonth, dateColumn, mediaColumn)) &&
      0 <= a.invalidCount && a.validCount == |a.rentValues| == |a.responses| &&
      (forall i :: 0 <= i < |a.rentValues| ==> a.rentValues[i] > 0 && a.responses[i].rentValue == a.rentValues[i])
  {
    var rentColumn := DetectRentColumn(data.headers).value;
    SummaryCounts(SelectedResponses(h, table, data.rows, mediaType, yearMonth, rentColumn, dateColumn, mediaColumn, petColumn));
  }

  /** The statistics: all 0 without valid amounts; otherwise the average times the count is the
    * sum, the median is the element at `⌊n/2⌋` of the ascending order, and minimum, median and
    * maximum are amounts that occur, in that order. */
  lemma RentStatsSpec(values: seq<int>)
    ensures values == [] ==> RentStats(values) == (0.0, 0, 0, 0)
    ensures values != [] ==>
      IsRatio(RentStats(values).0, Sum(values) as real, |values| as real) &&
      RentStats(values).1 == SortInts(values)[|values| / 2] &&
      RentStats(values).2 <= RentStats(values).1 <= RentStats(values).3 &&
      RentStats(values).2 in values && RentStats(values).1 in values && RentStats(values).3 in values &&
      forall i :: 0 <= i < |values| ==> RentStats(values).2 <= values[i] <= RentStats(values).3
  {
    if values != [] {
      MiddleBetweenMinAndMax(values, |values| / 2);
    }
  }

  /** The statistics of an analysis are those of its valid amounts. */
  lemma SummaryStats(parsed: seq<ParsedResponse>)
    ensures var a := Summarise(parsed);
      (a.averageRent, a.medianRent, a.minRent, a.maxRent) == RentStats(a.rentValues) &&
      (a.validCount == 0 ==> a.rentValues == [] && a.responses == [])
  {
  }
}
