/**
 * The second reading of the desired rent: one number is pulled out of the answer (full-width
 * digits converted, `万` worth 10,000 yen) and replaced by the label of the fixed band holding it.
 * The sheet loader applies it to every rent column before the rent analysis reads the labels back.
 */
module RentNormalizer {
  import opened Wrappers
  import opened JsText
  import opened Spreadsheet
  import RentAnalytics

  /** A JavaScript number as the normaliser sees it: a finite value or `NaN`. */
  datatype Amount = Finite(x: real) | NotANumber

  /** One entry of `RENT_RANGES`: its bounds in yen, `None` as the maximum being `Infinity`. */
  datatype RentRange = RentRange(min: nat, max: Option<nat>)

  /** The label of a band, which the source writes out as its bounds with thousands separators:
    * `~50,000円` for the band from 0, `510,000円~` for the open band, `51,000~75,000円` otherwise. */
  function RangeLabel(r: RentRange): string {
    if r.max.None? then RentAnalytics.GroupedText(r.min) + "円~"
    else if r.min == 0 then "~" + RentAnalytics.GroupedText(r.max.value) + "円"
    else RentAnalytics.GroupedText(r.min) + "~" + RentAnalytics.GroupedText(r.max.value) + "円"
  }

  const OtherLabel: string := "その他"

  /** `RENT_RANGES`, in source order. */
  const RentRanges: seq<RentRange> := [
    RentRange(0, Some(50000)),
    RentRange(51000, Some(75000)),
    RentRange(76000, Some(100000)),
    RentRange(101000, Some(125000)),
    RentRange(126000, Some(150000)),
    RentRange(151000, Some(170000)),
    RentRange(171000, Some(200000)),
    RentRange(201000, Some(225000)),
    RentRange(226000, Some(250000)),
    RentRange(251000, Some(275000)),
    RentRange(276000, Some(300000)),
    RentRange(301000, Some(325000)),
    RentRange(326000, Some(350000)),
    RentRange(351000, Some(375000)),
    RentRange(376000, Some(400000)),
    RentRange(401000, Some(425000)),
    RentRange(426000, Some(450000)),
    RentRange(451000, Some(475000)),
    RentRange(476000, Some(500000)),
    RentRange(510000, None)
  ]

  // ---------------------------------------------------------------------------------------
  // Pulling a number out of an answer

  predicate IsFullWidthDigit(c: char) {
    '\U{FF10}' <= c <= '\U{FF19}'
  }

  /** One character of `toHalfWidth`: `０`–`９` become `0`–`9`. */
  function HalfWidthChar(c: char): char {
    if IsFullWidthDigit(c) then (c as int - 0xFEE0) as char else c
  }

  /** `toHalfWidth` */
  function ToHalfWidth(s: string): (r: string)
    ensures |r| == |s|
    ensures forall i :: 0 <= i < |s| ==> r[i] == HalfWidthChar(s[i])
  {
    seq(|s|, i requires 0 <= i < |s| => HalfWidthChar(s[i]))
  }

  /** After the conversion a character is an ASCII digit exactly when it was a digit of either
    * width, with the same value; every other character is unchanged. */
  lemma HalfWidthDigits(s: string, i: int)
    requires 0 <= i < |s|
    ensures IsDigit(ToHalfWidth(s)[i]) <==> IsDigit(s[i]) || IsFullWidthDigit(s[i])
    ensures IsFullWidthDigit(s[i]) ==> DigitValue(ToHalfWidth(s)[i]) == s[i] as int - 0xFF10
    ensures !IsFullWidthDigit(s[i]) ==> ToHalfWidth(s)[i] == s[i]
  {
  }

  /** The characters of the class `[\d.]`. */
  predicate IsNumberChar(c: char) {
    IsDigit(c) || c == '.'
  }

  /** The longest prefix of digits and dots. */
  function NumberRun(s: string): (r: string)
    ensures |r| <= |s| && r == s[..|r|]
    ensures forall i :: 0 <= i < |r| ==> IsNumberChar(r[i])
    ensures |r| < |s| ==> !IsNumberChar(s[|r|])
    decreases |s|
  {
    if s != [] && IsNumberChar(s[0]) then [s[0]] + NumberRun(s[1..]) else ""
  }

  /** `([\d.]+)万` matches at index `i`: a run of digits and dots starts there and `万` follows the
    * whole run. As `万` is not in the class, backtracking to a shorter run never helps. */
  predicate ManMatchesAt(s: string, i: int)
    requires 0 <= i <= |s|
  {
    var run := NumberRun(s[i..]);
    run != [] && i + |run| < |s| && s[i + |run|] == '万'
  }

  /** `cleaned.match(/([\d.]+)万/)`: the captured run of the leftmost match at or after `i`. */
  function ManMatchFrom(s: string, i: nat): Option<string>
    requires i <= |s|
    decreases |s| - i
  {
    if i == |s| then None
    else if ManMatchesAt(s, i) then Some(NumberRun(s[i..]))
    else ManMatchFrom(s, i + 1)
  }

  /** The match is the leftmost one: no match exists before the index where it starts, and none
    * at all when the result is `None`. */
  lemma {:induction false} ManMatchLeftmost(s: string, i: nat)
    requires i <= |s|
    ensures ManMatchFrom(s, i).None? <==> forall k :: i <= k < |s| ==> !ManMatchesAt(s, k)
    ensures ManMatchFrom(s, i).Some? ==>
      exists j :: i <= j < |s| && ManMatchesAt(s, j) && ManMatchFrom(s, i).value == NumberRun(s[j..]) &&
        (forall k :: i <= k < j ==> !ManMatchesAt(s, k))
    decreases |s| - i
  {
    if i < |s| && !ManMatchesAt(s, i) {
      ManMatchLeftmost(s, i + 1);
    }
  }

  /** `parseFloat` on a run of digits and dots: the digits up to the first dot, then the digits
    * after it; `NaN` when neither part has a digit. */
  function ParseDecimal(run: string): (a: Amount)
    ensures a.Finite? ==> a.x >= 0.0
  {
    var whole := LeadingDigits(run);
    var rest := run[|whole|..];
    var fraction := if rest != [] && rest[0] == '.' then LeadingDigits(rest[1..]) else "";
    if whole == "" && fraction == "" then NotANumber
    else Finite(DigitsValue(whole) as real + DigitsValue(fraction) as real / Pow10(|fraction|) as real)
  }

  /** `parseFloat(x) * 10000` */
  function TenThousands(a: Amount): Amount {
    match a
    case Finite(x) => Finite(x * 10000.0)
    case NotANumber => NotANumber
  }

  /** The characters `[以下以上〜~]` that are deleted before the plain number is read. */
  const RangeWords: set<char> := {'以', '下', '上', '〜', '~'}

  /** `s.match(/\d+/)`: the first run of ASCII digits. */
  function FirstDigitRun(s: string): Option<string>
    decreases |s|
  {
    if s == [] then None
    else if IsDigit(s[0]) then Some(LeadingDigits(s))
    else FirstDigitRun(s[1..])
  }

  /** The first digit run exists exactly when some digit does, and is a non-empty run of digits. */
  lemma {:induction false} FirstDigitRunSpec(s: string)
    ensures FirstDigitRun(s).None? <==> forall i :: 0 <= i < |s| ==> !IsDigit(s[i])
    ensures FirstDigitRun(s).Some? ==> FirstDigitRun(s).value != [] && AllDigits(FirstDigitRun(s).value)
    decreases |s|
  {
    if s != [] && !IsDigit(s[0]) {
      FirstDigitRunSpec(s[1..]);
      assert forall i :: 1 <= i < |s| ==> s[i] == s[1..][i - 1];
    }
  }

  /** `extractNumber`: after converting full-width digits and deleting `,` and `、`, the number
    * before the first `万` match times 10,000; failing that, the first digit run once the range
    * words are deleted; `None` (`null`) when there is no digit run either. A sign is never read,
    * so no number is negative. */
  function ExtractNumber(value: string): (r: Option<Amount>)
    ensures r.Some? && r.value.Finite? ==> r.value.x >= 0.0
  {
    var cleaned := RemoveChars(ToHalfWidth(value), {',', '、'});
    var man := if '万' in cleaned then ManMatchFrom(cleaned, 0) else None;
    if man.Some? then Some(TenThousands(ParseDecimal(man.value)))
    else
      var digits := FirstDigitRun(RemoveChars(cleaned, RangeWords));
      if digits.Some? then
        FirstDigitRunSpec(RemoveChars(cleaned, RangeWords));
        Some(Finite(DigitsValue(digits.value) as real))
      else None
  }

  /** An answer with a digit of either width always yields a number. */
  lemma DigitGivesNumber(value: string, i: int)
    requires 0 <= i < |value| && (IsDigit(value[i]) || IsFullWidthDigit(value[i]))
    ensures ExtractNumber(value).Some?
  {
    var half := ToHalfWidth(value);
    HalfWidthDigits(value, i);
    var c := half[i];
    var cleaned := RemoveChars(half, {',', '、'});
    RemoveCharsMembers(half, {',', '、'}, c);
    var stripped := RemoveChars(cleaned, RangeWords);
    RemoveCharsMembers(cleaned, RangeWords, c);
    var k :| 0 <= k < |stripped| && stripped[k] == c;
    FirstDigitRunSpec(stripped);
  }

  /** Removing characters adds no digit. */
  lemma NoDigitAfterRemoval(s: string, cs: set<char>)
    requires forall i :: 0 <= i < |s| ==> !IsDigit(s[i])
    ensures forall i :: 0 <= i < |RemoveChars(s, cs)| ==> !IsDigit(RemoveChars(s, cs)[i])
  {
    forall i | 0 <= i < |RemoveChars(s, cs)|
      ensures !IsDigit(RemoveChars(s, cs)[i])
    {
      RemoveCharsMembers(s, cs, RemoveChars(s, cs)[i]);
    }
  }

  /** A run of digits and dots without a digit reads as `NaN`. */
  lemma DotsAreNaN(run: string)
    requires forall t :: 0 <= t < |run| ==> IsNumberChar(run[t]) && !IsDigit(run[t])
    ensures ParseDecimal(run) == NotANumber
  {
    assert LeadingDigits(run) == "";
    if |run| > 1 {
      assert run[1..][0] == run[1];
    }
  }

  /** An answer without any digit yields no number, or `NaN` when a run of dots precedes `万`. */
  lemma NoDigitNoNumber(value: string)
    requires forall i :: 0 <= i < |value| ==> !IsDigit(value[i]) && !IsFullWidthDigit(value[i])
    ensures ExtractNumber(value).None? || ExtractNumber(value) == Some(NotANumber)
  {
    var half := ToHalfWidth(value);
    forall i | 0 <= i < |half|
      ensures !IsDigit(half[i])
    {
      HalfWidthDigits(value, i);
    }
    NoDigitAfterRemoval(half, {',', '、'});
    var cleaned := RemoveChars(half, {',', '、'});
    NoDigitAfterRemoval(cleaned, RangeWords);
    FirstDigitRunSpec(RemoveChars(cleaned, RangeWords));
    if '万' in cleaned && ManMatchFrom(cleaned, 0).Some? {
      ManMatchLeftmost(cleaned, 0);
      var j :| 0 <= j < |cleaned| && ManMatchFrom(cleaned, 0).value == NumberRun(cleaned[j..]);
      var run := NumberRun(cleaned[j..]);
      assert forall t :: 0 <= t < |run| ==> run[t] == cleaned[j + t];
      DotsAreNaN(run);
    }
  }

  // ---------------------------------------------------------------------------------------
  // From a number to its band

  predicate InRange(x: real, r: RentRange) {
    r.min as real <= x && (r.max.None? || x <= r.max.value as real)
  }

  /** The `for … of` search of `getRangeLabel`: the index of the first band holding `x`. */
  function FirstRange(ranges: seq<RentRange>, x: real): (r: Option<nat>)
    ensures r.None? <==> forall k :: 0 <= k < |ranges| ==> !InRange(x, ranges[k])
    ensures r.Some? ==>
      r.value < |ranges| && InRange(x, ranges[r.value]) && forall j :: 0 <= j < r.value ==> !InRange(x, ranges[j])
    decreases |ranges|
  {
    if ranges == [] then None
    else if InRange(x, ranges[0]) then Some(0)
    else
      var r := FirstRange(ranges[1..], x);
      assert forall k :: 1 <= k < |ranges| ==> ranges[k] == ranges[1..][k - 1];
      if r.Some? then Some(r.value + 1) else None
  }

  /** The band `getRangeLabel` picks: the first band holding the amount; below the first band
    * the first; otherwise, and for `NaN`, which no comparison holds for, the last. */
  function RangeIndex(ranges: seq<RentRange>, a: Amount): (k: nat)
    requires ranges != []
    ensures k < |ranges|
  {
    match a
    case NotANumber => |ranges| - 1
    case Finite(x) =>
      var found := FirstRange(ranges, x);
      if found.Some? then found.value
      else if x < ranges[0].min as real then 0
      else |ranges| - 1
  }

  /** `getRangeLabel`: always one of the band labels, never `その他`, and the label of the band
    * holding the amount when there is one. */
  function GetRangeLabel(a: Amount): (r: string)
    ensures IsBandLabel(r) && r != OtherLabel
    ensures a.Finite? ==> forall k :: 0 <= k < |RentRanges| && InRange(a.x, RentRanges[k]) ==> r == RangeLabel(RentRanges[k])
  {
    var k := RangeIndex(RentRanges, a);
    BandLabelIsNotOther(RentRanges[k]);
    if a.Finite? then LabelOfEveryBand(a.x); RangeLabel(RentRanges[k])
    else RangeLabel(RentRanges[k])
  }

  /** A value inside one of the twenty bands gets that band. */
  lemma LabelOfEveryBand(x: real)
    ensures forall k :: 0 <= k < |RentRanges| && InRange(x, RentRanges[k]) ==> RangeIndex(RentRanges, Finite(x)) == k
  {
    RentRangesAscending();
    forall k | 0 <= k < |RentRanges| && InRange(x, RentRanges[k])
      ensures RangeIndex(RentRanges, Finite(x)) == k
    {
      LabelOfBand(RentRanges, x, k);
    }
  }

  /** The bands come in ascending order, each ending before the next begins. */
  ghost predicate Ascending(ranges: seq<RentRange>) {
    (forall k :: 0 <= k < |ranges| ==> ranges[k].max.None? || ranges[k].min <= ranges[k].max.value) &&
    (forall k :: 0 <= k < |ranges| - 1 ==> ranges[k].max.Some? && ranges[k].max.value < ranges[k + 1].min)
  }

  /** Each band from `i` on is well formed and ends before the next begins: a check that can be
    * evaluated on the literal table. */
  predicate ChainedFrom(ranges: seq<RentRange>, i: nat)
    decreases |ranges| - i
  {
    i + 1 >= |ranges| ||
    (ranges[i].max.Some? && ranges[i].min <= ranges[i].max.value && ranges[i].max.value < ranges[i + 1].min &&
     ChainedFrom(ranges, i + 1))
  }

  lemma {:induction false} ChainedIsAscending(ranges: seq<RentRange>, i: nat)
    requires ChainedFrom(ranges, i)
    ensures forall k :: i <= k < |ranges| - 1 ==>
      ranges[k].max.Some? && ranges[k].min <= ranges[k].max.value && ranges[k].max.value < ranges[k + 1].min
    decreases |ranges| - i
  {
    if i + 1 < |ranges| {
      ChainedIsAscending(ranges, i + 1);
    }
  }

  lemma RentRangesAscending()
    ensures Ascending(RentRanges)
  {
    // the check, evaluated band by band from the last
    assert ChainedFrom(RentRanges, 19);
    assert ChainedFrom(RentRanges, 18);
    assert ChainedFrom(RentRanges, 17);
    assert ChainedFrom(RentRanges, 16);
    assert ChainedFrom(RentRanges, 15);
    assert ChainedFrom(RentRanges, 14);
    assert ChainedFrom(RentRanges, 13);
    assert ChainedFrom(RentRanges, 12);
    assert ChainedFrom(RentRanges, 11);
    assert ChainedFrom(RentRanges, 10);
    assert ChainedFrom(RentRanges, 9);
    assert ChainedFrom(RentRanges, 8);
    assert ChainedFrom(RentRanges, 7);
    assert ChainedFrom(RentRanges, 6);
    assert ChainedFrom(RentRanges, 5);
    assert ChainedFrom(RentRanges, 4);
    assert ChainedFrom(RentRanges, 3);
    assert ChainedFrom(RentRanges, 2);
    assert ChainedFrom(RentRanges, 1);
    assert ChainedFrom(RentRanges, 0);
    ChainedIsAscending(RentRanges, 0);
  }

  /** In ascending bands every band ends before any later band begins. */
  lemma {:induction false} AscendingOrder(ranges: seq<RentRange>, j: int, k: int)
    requires Ascending(ranges) && 0 <= j < k < |ranges|
    ensures ranges[j].max.Some? && ranges[j].max.value < ranges[k].min
    decreases k - j
  {
    if j + 1 < k {
      AscendingOrder(ranges, j + 1, k);
    }
  }

  /** In ascending bands an amount inside band `k` is found in band `k`. */
  lemma LabelOfBand(ranges: seq<RentRange>, x: real, k: int)
    requires Ascending(ranges) && 0 <= k < |ranges| && InRange(x, ranges[k])
    ensures RangeIndex(ranges, Finite(x)) == k
  {
    var j := FirstRange(ranges, x).value;
    if j < k {
      AscendingOrder(ranges, j, k);
    }
  }

  /** An amount in no band gets the first band when it lies below it, and the last otherwise. */
  lemma LabelOutsideBands(ranges: seq<RentRange>, x: real)
    requires ranges != [] && forall k :: 0 <= k < |ranges| ==> !InRange(x, ranges[k])
    ensures RangeIndex(ranges, Finite(x)) == if x < ranges[0].min as real then 0 else |ranges| - 1
  {
  }

  /** Every amount between two consecutive bands gets the last band. */
  lemma GapGetsLastBand(ranges: seq<RentRange>, k: int, x: real)
    requires Ascending(ranges) && 0 <= k < |ranges| - 1
    requires ranges[k].max.Some? && ranges[k].max.value as real < x < ranges[k + 1].min as real
    ensures RangeIndex(ranges, Finite(x)) == |ranges| - 1
  {
    forall j | 0 <= j < |ranges|
      ensures !InRange(x, ranges[j])
    {
      if j < k {
        AscendingOrder(ranges, j, k);
      } else if j > k + 1 {
        AscendingOrder(ranges, k + 1, j);
      }
    }
    if k > 0 {
      AscendingOrder(ranges, 0, k);
    }
    LabelOutsideBands(ranges, x);
  }

  /** Amounts in the gaps of `RENT_RANGES`, such as 50,500 or 505,000 yen, get `510,000円~`;
    * negative amounts get `~50,000円`. */
  lemma GapsGetTopLabel(x: real)
    requires 50000.0 < x < 51000.0 || 500000.0 < x < 510000.0 || x < 0.0
    ensures RangeIndex(RentRanges, Finite(x)) == if x < 0.0 then 0 else |RentRanges| - 1
  {
    RentRangesAscending();
    if x < 0.0 {
      LabelOutsideBands(RentRanges, x);
    } else if x < 51000.0 {
      GapGetsLastBand(RentRanges, 0, x);
    } else {
      GapGetsLastBand(RentRanges, 18, x);
    }
  }

  predicate IsBandLabel(s: string) {
    exists k :: 0 <= k < |RentRanges| && RangeLabel(RentRanges[k]) == s
  }

  /** No band label is `その他`: each ends in `円` or `~`. */
  lemma BandLabelIsNotOther(r: RentRange)
    ensures RangeLabel(r) != OtherLabel
  {
    var t := RangeLabel(r);
    assert t[|t| - 1] == (if r.max.None? then '~' else '円');
    assert OtherLabel[|OtherLabel| - 1] == '他';
  }

  // ---------------------------------------------------------------------------------------
  // normalizeRent

  /** `normalizeRent`: a number goes straight to its band; an empty or blank text, or one without
    * a number, is `その他`; any other text goes to the band of its number. The result is
    * `その他` or one of the twenty band labels, and `その他` exactly for a blank text or a text
    * without a number. */
  function NormalizeRent(value: Cell): (r: string)
    ensures r == OtherLabel || IsBandLabel(r)
    ensures r == OtherLabel <==> value.Str? && (AllSpace(value.text) || ExtractNumber(value.text).None?)
  {
    TrimEmptyIffAllSpace(if value.Str? then value.text else "");
    match value
    case Num(x) => GetRangeLabel(Finite(x))
    case Str(s) =>
      if s == "" || Trim(s) == "" then OtherLabel
      else
        match ExtractNumber(s)
        case None => OtherLabel
        case Some(a) => GetRangeLabel(a)
  }

  /** A text with a digit of either width is never `その他`. */
  lemma DigitNeverOther(s: string, i: int)
    requires 0 <= i < |s| && (IsDigit(s[i]) || IsFullWidthDigit(s[i]))
    ensures NormalizeRent(Str(s)) != OtherLabel
  {
    DigitGivesNumber(s, i);
    assert !IsSpace(s[i]);
  }

  /** `15万` reads as 150,000 yen. */
  lemma ManAnswerExample()
    ensures ExtractNumber("15万") == Some(Finite(150000.0))
  {
    assert ToHalfWidth("15万") == "15万";
    assert RemoveChars("15万", {',', '、'}) == "15万";
    assert NumberRun("15万") == "15";
    assert ManMatchFrom("15万", 0) == Some("15");
    assert ParseDecimal("15") == Finite(15.0);
  }

  /** The last band is the open one from 510,000 yen, labelled `510,000円~`. */
  lemma LastBand()
    ensures |RentRanges| == 20 && RentRanges[19] == RentRange(510000, None)
    ensures RangeLabel(RentRanges[19]) == "510,000円~"
  {
    assert RentRanges[19] == RentRange(510000, None);
  }

  /** `NaN` and every amount from 510,000 yen up are labelled `510,000円~`. */
  lemma TopBandExample(a: Amount)
    requires a.NotANumber? || a.x >= 510000.0
    ensures GetRangeLabel(a) == "510,000円~"
  {
    LastBand();
    if a.Finite? {
      RentRangesAscending();
      LabelOfBand(RentRanges, a.x, 19);
    }
  }

  /** The fifth band runs from 126,000 to 150,000 yen and is labelled `126,000~150,000円`. */
  lemma FifthBand()
    ensures RentRanges[4] == RentRange(126000, Some(150000))
    ensures RangeLabel(RentRanges[4]) == "126,000~150,000円"
  {
    assert RentRanges[4] == RentRange(126000, Some(150000));
    FifthBandLabel(RentRanges[4]);
  }

  lemma FifthBandLabel(r: RentRange)
    requires r == RentRange(126000, Some(150000))
    ensures RangeLabel(r) == "126,000~150,000円"
  {
    WholeThousands(126);
    WholeThousands(150);
    assert NatText(126) == "126" && NatText(150) == "150";
  }

  /** A whole number of thousands, from 1,000 to 999,000, is written as its thousands and `,000`. */
  lemma WholeThousands(k: nat)
    requires 1 <= k < 1000
    ensures RentAnalytics.GroupedText(k * 1000) == NatText(k) + ",000"
  {
    var n := k * 1000;
    assert n / 1000 == k && n % 1000 == 0;
    assert RentAnalytics.Pad3(0) == "000";
  }

  /** Every amount from 126,000 to 150,000 yen, both included, is labelled `126,000~150,000円`. */
  lemma FifthBandExample(x: real)
    requires 126000.0 <= x <= 150000.0
    ensures GetRangeLabel(Finite(x)) == "126,000~150,000円"
  {
    FifthBand();
    RentRangesAscending();
    LabelOfBand(RentRanges, x, 4);
  }

  /** A text that is not blank and holds a number gets the label of that number's band. */
  lemma TextGetsBandOfItsNumber(s: string, a: Amount)
    requires !AllSpace(s) && ExtractNumber(s) == Some(a)
    ensures NormalizeRent(Str(s)) == GetRangeLabel(a)
  {
    TrimEmptyIffAllSpace(s);
  }

  /** `15万` is normalised to `126,000~150,000円`: a band holds its upper bound. */
  lemma ManAnswerNormalized()
    ensures NormalizeRent(Str("15万")) == "126,000~150,000円"
  {
    ManAnswerExample();
    assert !IsSpace("15万"[0]);
    TextGetsBandOfItsNumber("15万", Finite(150000.0));
    FifthBandExample(150000.0);
  }

  /** `10万〜15万` reads as 100,000 yen: the leftmost `万` match wins. */
  lemma RangeAnswerTakesFirstNumber()
    ensures ExtractNumber("10万〜15万") == Some(Finite(100000.0))
  {
    var s := "10万〜15万";
    RangeAnswerCleaned(s);
    RangeAnswerMatch(s);
    TenReadsAsTen();
  }

  lemma TenReadsAsTen()
    ensures ParseDecimal("10") == Finite(10.0)
  {
    var run := "10";
    assert LeadingDigits(run) == run;
    assert run[|run|..] == "";
    assert DigitsValue(run) == 10 by {
      assert run[..1] == "1" && "1"[..0] == "";
    }
  }

  lemma RangeAnswerCleaned(s: string)
    requires s == "10万〜15万"
    ensures RemoveChars(ToHalfWidth(s), {',', '、'}) == s && '万' in s
  {
    assert ToHalfWidth(s) == s;
    RemoveCharsAbsent(s, {',', '、'});
    assert s[2] == '万';
  }

  lemma RangeAnswerMatch(s: string)
    requires s == "10万〜15万"
    ensures ManMatchFrom(s, 0) == Some("10")
  {
    var run := NumberRun(s);
    assert IsNumberChar(s[0]) && IsNumberChar(s[1]) && !IsNumberChar(s[2]);
    assert |run| == 2;
    assert run == s[..2] == "10";
    assert s[2] == '万';
  }

  /** The full-width `８万` reads as 80,000 yen. */
  lemma FullWidthManAnswer()
    ensures ExtractNumber("８万") == Some(Finite(80000.0))
  {
    var s := "８万";
    assert ToHalfWidth(s) == "8万";
    assert RemoveChars("8万", {',', '、'}) == "8万";
    assert NumberRun("8万") == "8";
    assert ManMatchFrom("8万", 0) == Some("8");
    assert ParseDecimal("8") == Finite(8.0);
  }

  /** The third band runs from 76,000 to 100,000 yen and is labelled `76,000~100,000円`. */
  lemma ThirdBand()
    ensures RentRanges[2] == RentRange(76000, Some(100000))
    ensures RangeLabel(RentRanges[2]) == "76,000~100,000円"
  {
    assert RentRanges[2] == RentRange(76000, Some(100000));
    ThirdBandLabel(RentRanges[2]);
  }

  lemma ThirdBandLabel(r: RentRange)
    requires r == RentRange(76000, Some(100000))
    ensures RangeLabel(r) == "76,000~100,000円"
  {
    WholeThousands(76);
    WholeThousands(100);
    assert NatText(76) == "76" && NatText(100) == "100";
  }

  /** `８万` is normalised to `76,000~100,000円`. */
  lemma FullWidthAnswerNormalized()
    ensures NormalizeRent(Str("８万")) == "76,000~100,000円"
  {
    FullWidthManAnswer();
    assert !IsSpace("８万"[0]);
    TextGetsBandOfItsNumber("８万", Finite(80000.0));
    ThirdBand();
    RentRangesAscending();
    LabelOfBand(RentRanges, 80000.0, 2);
  }

  /** `10万〜15万` is normalised to `76,000~100,000円`, the band of its first number, not to the
    * band of 150,000 yen. */
  lemma RangeAnswerNormalized()
    ensures NormalizeRent(Str("10万〜15万")) == "76,000~100,000円"
  {
    RangeAnswerTakesFirstNumber();
    assert !IsSpace("10万〜15万"[0]);
    TextGetsBandOfItsNumber("10万〜15万", Finite(100000.0));
    ThirdBand();
    RentRangesAscending();
    LabelOfBand(RentRanges, 100000.0, 2);
  }

  /** `未定` ("undecided") holds no number and is normalised to `その他`. */
  lemma UndecidedIsOther()
    ensures NormalizeRent(Str("未定")) == OtherLabel
  {
    var s := "未定";
    assert ToHalfWidth(s) == s;
    assert RemoveChars(s, {',', '、'}) == s;
    assert '万' !in s;
    assert RemoveChars(s, RangeWords) == s;
    assert FirstDigitRun(s[1..]) == None;
    assert FirstDigitRun(s) == None;
    assert !IsSpace(s[0]);
    TrimEmptyIffAllSpace(s);
  }

  /** `126,000~150,000円` reads as 126,000,150,000 yen: once the commas and the `~` are deleted,
    * the two bounds form a single digit run. */
  lemma FifthBandLabelNumber()
    ensures ExtractNumber("126,000~150,000円") == Some(Finite(126000150000.0))
  {
    var a, b, c := "126", "000~150", "000円";
    FifthBandLabelParts("126,000~150,000円", a, b, c);
    CommasDropped(a, b, c);
    var before, after := "126000", "150000";
    FifthBandLabelJoinedParts(a, b, c, before, after);
    TildeJoinsDigits(before, after);
    FifthBandLabelDigits(before + after);
  }

  /** The label cut at its two commas; no part holds a comma and no character is a full-width digit. */
  lemma FifthBandLabelParts(s: string, a: string, b: string, c: string)
    requires s == "126,000~150,000円" && a == "126" && b == "000~150" && c == "000円"
    ensures s == a + [','] + b + [','] + c
    ensures forall i :: 0 <= i < |a| ==> a[i] !in {',', '、'}
    ensures forall i :: 0 <= i < |b| ==> b[i] !in {',', '、'}
    ensures forall i :: 0 <= i < |c| ==> c[i] !in {',', '、'}
    ensures forall i :: 0 <= i < |s| ==> !IsFullWidthDigit(s[i])
  {
  }

  /** Without its commas the label is two digit runs joined by `~` and followed by `円`. */
  lemma FifthBandLabelJoinedParts(a: string, b: string, c: string, before: string, after: string)
    requires a == "126" && b == "000~150" && c == "000円" && before == "126000" && after == "150000"
    ensures a + b + c == before + ['~'] + after + ['円'] && '万' !in a + b + c
    ensures before != [] && AllDigits(before) && AllDigits(after)
  {
  }

  /** Deleting two characters of `cs` from text whose other parts hold none of `cs`. */
  lemma RemoveTwoChars(a: string, x: char, b: string, y: char, c: string, cs: set<char>)
    requires x in cs && y in cs
    requires forall i :: 0 <= i < |a| ==> a[i] !in cs
    requires forall i :: 0 <= i < |b| ==> b[i] !in cs
    requires forall i :: 0 <= i < |c| ==> c[i] !in cs
    ensures RemoveChars(a + [x] + b + [y] + c, cs) == a + b + c
  {
    RemoveCharsAbsent(a, cs);
    RemoveDropped(a, x, cs);
    RemoveKept(a + [x], b, cs);
    RemoveDropped(a + [x] + b, y, cs);
    RemoveKept(a + [x] + b + [y], c, cs);
  }

  lemma RemoveDropped(p: string, x: char, cs: set<char>)
    requires x in cs
    ensures RemoveChars(p + [x], cs) == RemoveChars(p, cs)
  {
    RemoveCharsAppend(p, [x], cs);
    assert [x][1..] == [];
  }

  lemma RemoveKept(p: string, q: string, cs: set<char>)
    requires forall i :: 0 <= i < |q| ==> q[i] !in cs
    ensures RemoveChars(p + q, cs) == RemoveChars(p, cs) + q
  {
    RemoveCharsAppend(p, q, cs);
    RemoveCharsAbsent(q, cs);
  }

  /** `toHalfWidth`, then deleting `,`: two commas go from text whose other parts hold neither
    * `,` nor `、`, and no full-width digit anywhere. */
  lemma CommasDropped(a: string, b: string, c: string)
    requires forall i :: 0 <= i < |a| ==> a[i] !in {',', '、'}
    requires forall i :: 0 <= i < |b| ==> b[i] !in {',', '、'}
    requires forall i :: 0 <= i < |c| ==> c[i] !in {',', '、'}
    requires var s := a + [','] + b + [','] + c; forall i :: 0 <= i < |s| ==> !IsFullWidthDigit(s[i])
    ensures RemoveChars(ToHalfWidth(a + [','] + b + [','] + c), {',', '、'}) == a + b + c
  {
    NoFullWidthDigit(a + [','] + b + [','] + c);
    RemoveTwoChars(a, ',', b, ',', c, {',', '、'});
  }

  /** Text without full-width digits is left as it is by `toHalfWidth`. */
  lemma NoFullWidthDigit(s: string)
    requires forall i :: 0 <= i < |s| ==> !IsFullWidthDigit(s[i])
    ensures ToHalfWidth(s) == s
  {
  }

  /** Deleting the `~` between two digit runs followed by `円` joins them into one run. */
  lemma TildeJoinsDigits(before: string, after: string)
    requires before != [] && AllDigits(before) && AllDigits(after)
    ensures AllDigits(before + after)
    ensures FirstDigitRun(RemoveChars(before + ['~'] + after + ['円'], RangeWords)) == Some(before + after)
  {
    assert forall i :: 0 <= i < |before| ==> before[i] !in RangeWords;
    assert forall i :: 0 <= i < |after| ==> after[i] !in RangeWords;
    RemoveCharsAbsent(before, RangeWords);
    RemoveDropped(before, '~', RangeWords);
    RemoveKept(before + ['~'], after + ['円'], RangeWords);
    assert before + ['~'] + after + ['円'] == before + ['~'] + (after + ['円']);
    assert before + (after + ['円']) == (before + after) + "円";
    DigitRunBeforeYen(before + after);
  }

  lemma DigitRunBeforeYen(digits: string)
    requires digits != [] && AllDigits(digits)
    ensures FirstDigitRun(digits + "円") == Some(digits)
  {
    LeadingDigitsAppend(digits, "円");
  }

  /** The joined digit run `126000150000` and its value. */
  lemma FifthBandLabelDigits(digits: string)
    requires digits == "126000150000"
    ensures AllDigits(digits) && DigitsValue(digits) == 126000150000
  {
    var lower, upper := "126000", "150000";
    assert digits == lower + upper;
    DigitsValueAppend(lower, upper);
    ThousandsDigits(lower, 126);
    ThousandsDigits(upper, 150);
    assert Pow10(6) == 1000000;
  }

  /** Three digits and `000` read as that many thousands. */
  lemma ThousandsDigits(d: string, k: nat)
    requires |d| == 6 && AllDigits(d) && d[3..] == "000"
    requires k == DigitValue(d[0]) * 100 + DigitValue(d[1]) * 10 + DigitValue(d[2])
    ensures DigitsValue(d) == k * 1000
  {
    var hi := d[..3];
    assert d == hi + "000";
    DigitsValueAppend(hi, "000");
    var two, one := hi[..2], hi[..1];
    assert two[..1] == one && one[..0] == [] && hi[2] == d[2] && two[1] == d[1] && one[0] == d[0];
    assert DigitsValue(one) == DigitValue(d[0]);
    assert DigitsValue(two) == DigitValue(d[0]) * 10 + DigitValue(d[1]);
    assert DigitsValue(hi) == k;
    assert DigitsValue("000") == 0 by {
      assert "000"[..2] == "00" && "00"[..1] == "0" && "0"[..0] == "";
    }
    assert Pow10(3) == 1000;
  }

  /** The normaliser is not idempotent: normalising the label `126,000~150,000円` a second time
    * gives the top band, since the label itself reads as 126,000,150,000 yen. */
  lemma FifthBandLabelRenormalized()
    ensures RangeLabel(RentRanges[4]) == "126,000~150,000円"
    ensures NormalizeRent(Str(RangeLabel(RentRanges[4]))) == "510,000円~"
  {
    FifthBand();
    FifthBandLabelNumber();
    assert !IsSpace("126,000~150,000円"[0]);
    TextGetsBandOfItsNumber("126,000~150,000円", Finite(126000150000.0));
    TopBandExample(Finite(126000150000.0));
  }

  // ---------------------------------------------------------------------------------------
  // Rent columns in the loaded data

  /** `isRentColumn` */
  predicate IsRentColumn(header: string) {
    Includes(header, "希望家賃")
  }

  /** The rent column test of the analysis accepts the same headers: its second keyword already
    * contains the first. */
  lemma RentHeaderTestsAgree(header: string)
    ensures RentAnalytics.IsRentHeader(header) <==> IsRentColumn(header)
  {
    if Includes(header, "希望家賃上限") {
      var i :| 0 <= i <= |header| - 6 && OccursAt(header, "希望家賃上限", i);
      assert header[i..i + 4] == header[i..i + 6][..4];
      assert OccursAt(header, "希望家賃", i);
    }
  }

  /** `headers.filter(isRentColumn)` */
  function RentColumns(headers: seq<string>): (r: seq<string>)
    ensures forall c :: c in r <==> c in headers && IsRentColumn(c)
    decreases |headers|
  {
    if headers == [] then []
    else if IsRentColumn(headers[0]) then [headers[0]] + RentColumns(headers[1..])
    else RentColumns(headers[1..])
  }

  /** A field after normalisation: its band label when it is a rent field and not empty, its
    * old value otherwise. */
  function NormalizedField(before: Row, c: string, rentColumns: seq<string>): Cell
    requires c in before
  {
    if c in rentColumns && before[c] != Str("") then Str(NormalizeRent(before[c])) else before[c]
  }

  /** A row after normalisation: every present, non-empty rent field holds its band label; every
    * other field is as it was. */
  ghost predicate NormalizedRow(before: Row, after: Row, rentColumns: seq<string>) {
    after.Keys == before.Keys &&
    forall c :: c in before ==> after[c] == NormalizedField(before, c, rentColumns)
  }

  /** One more rent column changes at most that one field. */
  lemma NormalizedFieldStep(before: Row, c: string, done: seq<string>, column: string)
    requires c in before
    ensures NormalizedField(before, c, done + [column]) ==
      if c == column && before[c] != Str("") then Str(NormalizeRent(before[c])) else NormalizedField(before, c, done)
  {
  }

  /** The body of the `rows.map` callback: a copy of the row with each present, non-empty rent
    * field replaced by its band label. */
  method NormalizeRow(row: Row, rentColumns: seq<string>) returns (newRow: Row)
    ensures NormalizedRow(row, newRow, rentColumns)
  {
    newRow := row;
    for j := 0 to |rentColumns|
      invariant newRow.Keys == row.Keys
      invariant forall c :: c in row ==> newRow[c] == NormalizedField(row, c, rentColumns[..j])
    {
      var column := rentColumns[j];
      forall c | c in row {
        NormalizedFieldStep(row, c, rentColumns[..j], column);
      }
      if column in row && row[column] != Str("") {
        newRow := newRow[column := Str(NormalizeRent(row[column]))];
      }
      assert rentColumns[..j + 1] == rentColumns[..j] + [column];
    }
    assert rentColumns[..|rentColumns|] == rentColumns;
  }

  /** `normalizeRentInData`: without a rent column the rows come back as they are; otherwise each
    * row is normalised. */
  method NormalizeRentInData(rows: seq<Row>, headers: seq<string>) returns (result: seq<Row>)
    ensures (forall i :: 0 <= i < |headers| ==> !IsRentColumn(headers[i])) ==> result == rows
    ensures |result| == |rows|
    ensures forall i :: 0 <= i < |rows| ==> NormalizedRow(rows[i], result[i], RentColumns(headers))
  {
    var rentColumns := RentColumns(headers);
    if |rentColumns| == 0 {
      forall i | 0 <= i < |rows|
        ensures NormalizedRow(rows[i], rows[i], rentColumns)
      {
      }
      return rows;
    }
    assert rentColumns[0] in headers;
    result := [];
    for i := 0 to |rows|
      invariant |result| == i
      invariant forall k :: 0 <= k < i ==> NormalizedRow(rows[k], result[k], rentColumns)
    {
      var newRow := NormalizeRow(rows[i], rentColumns);
      result := result + [newRow];
    }
  }

  /** Normalisation keeps the set of fields of every row and every non-rent field. */
  lemma NormalizationKeepsOtherFields(before: Row, after: Row, headers: seq<string>, c: string)
    requires NormalizedRow(before, after, RentColumns(headers))
    requires c in before && (!IsRentColumn(c) || before[c] == Str(""))
    ensures c in after && after[c] == before[c]
  {
  }

  // ---------------------------------------------------------------------------------------
  // The two readings of the rent together

  /** Reading a band label back with the analysis's parser gives the band's upper limit: the
    * band from 0 by the `~X円` format and the other closed bands by the `X~Y円` format. */
  lemma BandLabelParsesToItsMaximum(table: seq<(string, RentAnalytics.RentBand)>, r: RentRange)
    requires r.max.Some? && r.max.value > 0
    requires RentAnalytics.TableLookup(table, RangeLabel(r)).None?
    ensures RentAnalytics.ParseRentValueWith(table, RangeLabel(r)) == RentAnalytics.Valid(r.max.value, RangeLabel(r))
  {
    if r.min == 0 {
      RentAnalytics.UpToFormatRoundTrip(table, r.max.value);
    } else {
      RentAnalytics.RangeFormatRoundTrip(table, r.min, r.max.value);
    }
  }

  /** The open band's label reads back as 500,000 yen, by the `X円~` format. */
  lemma OpenBandLabelParsesToTop(table: seq<(string, RentAnalytics.RentBand)>, r: RentRange)
    requires r.max.None?
    requires RentAnalytics.TableLookup(table, RangeLabel(r)).None?
    ensures RentAnalytics.ParseRentValueWith(table, RangeLabel(r)) == RentAnalytics.Valid(500000, RangeLabel(r))
  {
    RentAnalytics.FromFormatIsTop(table, r.min);
  }
}
