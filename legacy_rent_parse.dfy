/**
 * The earlier rent parser kept as a script: a range answer is read by its upper part,
 * found by the regular expression `(.+)[〜\-~](.+)` and parsed again; any other answer keeps
 * its ASCII digits only, and a number written in units of 10,000 yen (with 万, マン or 萬, or
 * any number below 100) is scaled up.
 */
module LegacyRentParse {
  import opened Wrappers
  import opened JsText
  import RentAnalytics

  type RentParseResult = RentAnalytics.RentParseResult

  // ---------------------------------------------------------------------------------------
  // The range expression

  /** `[〜\-~]`: the wave dash, the hyphen-minus and the tilde. */
  predicate IsRangeSeparator(c: char) {
    c == '\U{301C}' || c == '-' || c == '~'
  }

  /** The length of the first line: `.` matches anything but a line terminator. */
  function LineEnd(t: string): (e: nat)
    ensures e <= |t|
    ensures e < |t| ==> IsLineTerminator(t[e])
    ensures forall i :: 0 <= i < e ==> !IsLineTerminator(t[i])
    decreases |t|
  {
    if t == [] || IsLineTerminator(t[0]) then 0 else 1 + LineEnd(t[1..])
  }

  /** The last separator of `line` at an index from 1 to `p`. */
  function LastSeparator(line: string, p: int): (r: Option<nat>)
    requires p < |line|
    ensures r.Some? ==> 1 <= r.value <= p && IsRangeSeparator(line[r.value])
    decreases p
  {
    if p < 1 then None
    else if IsRangeSeparator(line[p]) then Some(p)
    else LastSeparator(line, p - 1)
  }

  /** The second group of the first match of `(.+)[〜\-~](.+)`: the match starts in the first
    * line that has a separator with text on both sides, the greedy first group runs to the
    * last such separator, and the second group to the end of that line. */
  function RangeUpper(t: string): (r: Option<string>)
    ensures r.Some? ==> 0 < |r.value| < |t|
    decreases |t|
  {
    var e := LineEnd(t);
    match LastSeparator(t[..e], e - 2)
    case Some(p) => Some(t[p + 1..e])
    case None => if e == |t| then None else RangeUpper(t[e + 1..])
  }

  lemma {:induction false} LastSeparatorSpec(line: string, p: int)
    requires p < |line|
    ensures var r := LastSeparator(line, p);
      (r.None? <==> forall q :: 1 <= q <= p ==> !IsRangeSeparator(line[q])) &&
      (r.Some? ==> forall q :: r.value < q <= p ==> !IsRangeSeparator(line[q]))
    decreases p
  {
    if p >= 1 && !IsRangeSeparator(line[p]) {
      LastSeparatorSpec(line, p - 1);
    }
  }

  /** On one line, the expression matches exactly when some separator has text on both sides,
    * and the upper part is what follows the last such separator. */
  lemma RangeUpperOneLine(t: string)
    requires forall i :: 0 <= i < |t| ==> !IsLineTerminator(t[i])
    ensures RangeUpper(t).None? <==> forall q :: 1 <= q <= |t| - 2 ==> !IsRangeSeparator(t[q])
    ensures RangeUpper(t).Some? ==> exists p :: (1 <= p <= |t| - 2 && IsRangeSeparator(t[p]) &&
      RangeUpper(t).value == t[p + 1..] &&
      forall q :: p < q <= |t| - 2 ==> !IsRangeSeparator(t[q]))
  {
    assert LineEnd(t) == |t|;
    assert t[..|t|] == t;
    LastSeparatorSpec(t, |t| - 2);
    var r := LastSeparator(t, |t| - 2);
    if r.Some? {
      var p := r.value;
      assert RangeUpper(t).value == t[p + 1..];
      assert 1 <= p <= |t| - 2 && IsRangeSeparator(t[p]) && forall q :: p < q <= |t| - 2 ==> !IsRangeSeparator(t[q]);
    }
  }

  // ---------------------------------------------------------------------------------------
  // The number

  predicate HasMan(t: string) {
    Includes(t, "万") || Includes(t, "マン") || Includes(t, "萬")
  }

  /** The chain of `replace` calls: commas, 円, 以下, 以上, 万, マン and 萬 removed, then every
    * character that is not an ASCII digit. */
  function NumericString(t: string): string {
    var s := RemoveAll(RemoveAll(RemoveAll(RemoveAll(t, ","), "円"), "以下"), "以上");
    KeepDigits(RemoveAll(RemoveAll(RemoveAll(s, "万"), "マン"), "萬"))
  }

  /** Numbers in units of 10,000 yen are scaled up. */
  function Scaled(n: int, man: bool): int {
    if man then n * 10000 else if n < 100 then n * 10000 else n
  }

  /** `parseRentValue` of the script. A range answer is parsed again from its trimmed upper
    * part, which then also becomes the result's `original`. A result is valid exactly when it
    * carries a value, and every value is at least 100 (so positive). */
  function ParseLegacyRent(value: string): (r: RentParseResult)
    ensures r.isValid <==> r.value.Some?
    ensures r.isValid ==> r.value.value >= 100
    decreases |value|
  {
    var trimmed := Trim(value);
    if trimmed == "" then RentAnalytics.Invalid(value)
    else match RangeUpper(trimmed)
      case Some(upper) =>
        TrimSpec(value); TrimSpec(upper);
        ParseLegacyRent(Trim(upper))
      case None =>
        var digits := NumericString(trimmed);
        if digits == "" then RentAnalytics.Invalid(value)
        else match ParseInt(digits)
          case None => RentAnalytics.Invalid(value)
          case Some(n) =>
            if n <= 0 then RentAnalytics.Invalid(value)
            else RentAnalytics.Valid(Scaled(n, HasMan(trimmed)), value)
  }

  // ---------------------------------------------------------------------------------------
  // Properties

  lemma {:induction false} KeepDigitsAppend(a: string, b: string)
    ensures KeepDigits(a + b) == KeepDigits(a) + KeepDigits(b)
    decreases |a|
  {
    if a == [] {
      assert a + b == b;
    } else {
      assert (a + b)[1..] == a[1..] + b;
      KeepDigitsAppend(a[1..], b);
    }
  }

  /** Removing a pattern without digits keeps the same digits. */
  lemma {:induction false} KeepDigitsRemoveAll(s: string, pat: string)
    requires pat != [] && KeepDigits(pat) == ""
    ensures KeepDigits(RemoveAll(s, pat)) == KeepDigits(s)
    decreases |s|
  {
    if s != [] {
      if StartsWith(s, pat) {
        KeepDigitsRemoveAll(s[|pat|..], pat);
        assert s == pat + s[|pat|..];
        KeepDigitsAppend(pat, s[|pat|..]);
      } else {
        KeepDigitsRemoveAll(s[1..], pat);
        assert RemoveAll(s, pat) == [s[0]] + RemoveAll(s[1..], pat);
        KeepDigitsAppend([s[0]], RemoveAll(s[1..], pat));
        KeepDigitsAppend([s[0]], s[1..]);
        assert [s[0]] + s[1..] == s;
      }
    }
  }

  /** The words removed before the last step carry no digits, so the chain keeps exactly the
    * ASCII digits of the answer, in order. */
  lemma NumericStringIsDigits(t: string)
    ensures NumericString(t) == KeepDigits(t)
  {
    var s1 := RemoveAll(t, ",");
    var s2 := RemoveAll(s1, "円");
    var s3 := RemoveAll(s2, "以下");
    var s4 := RemoveAll(s3, "以上");
    var s5 := RemoveAll(s4, "万");
    var s6 := RemoveAll(s5, "マン");
    KeepDigitsRemoveAll(t, ",");
    KeepDigitsRemoveAll(s1, "円");
    KeepDigitsRemoveAll(s2, "以下");
    KeepDigitsRemoveAll(s3, "以上");
    KeepDigitsRemoveAll(s4, "万");
    KeepDigitsRemoveAll(s5, "マン");
    KeepDigitsRemoveAll(s6, "萬");
  }

  /** Blank answers are invalid and keep their text. */
  lemma BlankIsInvalid(value: string)
    requires AllSpace(value)
    ensures ParseLegacyRent(value) == RentAnalytics.Invalid(value)
  {
    TrimEmptyIffAllSpace(value);
  }

  /** A range answer is the parse of its trimmed upper part, a strictly shorter text. */
  lemma RangeReadsUpperPart(value: string)
    requires RangeUpper(Trim(value)).Some?
    ensures var upper := Trim(RangeUpper(Trim(value)).value);
      |upper| < |value| && ParseLegacyRent(value) == ParseLegacyRent(upper)
  {
    var t := Trim(value);
    TrimEmptyIffAllSpace(value);
    TrimSpec(value);
    TrimSpec(RangeUpper(t).value);
  }

  /** Any other non-blank answer is valid exactly when it holds a non-zero ASCII digit; its value
    * is the number its digits spell, scaled by 10,000 when the answer names 万, マン or 萬 or
    * the number is below 100. */
  lemma DigitsDecide(value: string)
    requires Trim(value) != "" && RangeUpper(Trim(value)).None?
    ensures var t := Trim(value); var d := KeepDigits(t); var r := ParseLegacyRent(value);
      r.original == value &&
      (r.isValid <==> exists i :: 0 <= i < |d| && d[i] != '0') &&
      (r.isValid ==> r.value == Some(Scaled(DigitsValue(d), HasMan(t))))
  {
    var t := Trim(value);
    var d := KeepDigits(t);
    NumericStringIsDigits(t);
    DigitsValueZero(d);
    if d != "" {
      ParseIntOfDigits(d);
    }
  }

  // ---------------------------------------------------------------------------------------
  // The script's sample answers

  /** A one-line answer without surrounding whitespace and without a separator between two
    * characters reads as its digits. */
  lemma PlainAnswer(t: string, d: string, n: int, man: bool)
    requires t != [] && !IsSpace(t[0]) && !IsSpace(t[|t| - 1])
    requires forall i :: 0 <= i < |t| ==> !IsLineTerminator(t[i]) && !IsRangeSeparator(t[i])
    requires KeepDigits(t) == d && d != [] && d[0] != '0'
    requires DigitsValue(d) == n && HasMan(t) == man
    ensures ParseLegacyRent(t) == RentAnalytics.Valid(Scaled(n, man), t)
  {
    TrimIdentity(t);
    RangeUpperOneLine(t);
    DigitsDecide(t);
  }

  /** An answer with none of the characters of 万, マン and 萬 names no unit. */
  lemma NoUnit(t: string)
    requires forall i :: 0 <= i < |t| ==> t[i] != '万' && t[i] != 'マ' && t[i] != '萬'
    ensures !HasMan(t)
  {
    forall sub, i | sub in {"万", "マン", "萬"} && 0 <= i <= |t| - |sub|
      ensures !OccursAt(t, sub, i)
    {
      if OccursAt(t, sub, i) {
        OccursAtStart(t, sub, i);
        assert false;
      }
    }
  }


  /** A number followed by a unit word: its digits are the number's, and it names a unit. */
  lemma NumberAndUnit(t: string, d: string, unit: string)
    requires t == d + unit && AllDigits(d) && unit in {"万", "マン", "萬"}
    ensures KeepDigits(t) == d && HasMan(t)
  {
    KeepDigitsAppend(d, unit);
    assert KeepDigits(d) == d by {
      KeepDigitsOfDigits(d);
    }
    assert t[|d|..] == unit;
    assert OccursAt(t, unit, |d|);
  }

  lemma {:induction false} KeepDigitsOfDigits(d: string)
    requires AllDigits(d)
    ensures KeepDigits(d) == d
    decreases |d|
  {
    if d != [] {
      KeepDigitsOfDigits(d[1..]);
    }
  }

  lemma SampleTenMan(t: string)
    requires t == "10万"
    ensures ParseLegacyRent(t) == RentAnalytics.Valid(100000, t)
  {
    NumberAndUnit(t, "10", "万");
    PlainAnswer(t, "10", 10, true);
  }

  /** A bare number below 100 is read in units of 10,000 yen. */
  lemma SampleSixteen(t: string)
    requires t == "16"
    ensures ParseLegacyRent(t) == RentAnalytics.Valid(160000, t)
  {
    NoUnit(t);
    KeepDigitsOfDigits(t);
    PlainAnswer(t, "16", 16, false);
  }

  lemma SampleSeventeenMan(t: string)
    requires t == "17マン"
    ensures ParseLegacyRent(t) == RentAnalytics.Valid(170000, t)
  {
    NumberAndUnit(t, "17", "マン");
    PlainAnswer(t, "17", 17, true);
  }

  lemma SampleTwentyOldMan(t: string)
    requires t == "20萬"
    ensures ParseLegacyRent(t) == RentAnalytics.Valid(200000, t)
  {
    NumberAndUnit(t, "20", "萬");
    PlainAnswer(t, "20", 20, true);
  }

  lemma SampleTwentyMan(t: string)
    requires t == "20万"
    ensures ParseLegacyRent(t) == RentAnalytics.Valid(200000, t)
  {
    NumberAndUnit(t, "20", "万");
    PlainAnswer(t, "20", 20, true);
  }

  /** A range answer reads as its upper part, which is also what `original` then holds. */
  lemma SampleRange(t: string)
    requires t == "10万〜20万"
    ensures ParseLegacyRent(t) == RentAnalytics.Valid(200000, "20万")
  {
    SampleRangeUpper(t);
    RangeReadsUpperPart(t);
    TrimIdentity("20万");
    SampleTwentyMan("20万");
  }

  lemma SampleRangeUpper(t: string)
    requires t == "10万〜20万"
    ensures Trim(t) == t && RangeUpper(t) == Some("20万")
  {
    TrimIdentity(t);
    RangeUpperOneLine(t);
    assert IsRangeSeparator(t[3]) && !IsRangeSeparator(t[4]);
    assert t[4..] == "20万";
  }

  /** The comma of a grouped amount is dropped; at 100 or more the number is taken in yen. */
  lemma SampleGroupedYen(t: string)
    requires t == "150,000"
    ensures ParseLegacyRent(t) == RentAnalytics.Valid(150000, t)
  {
    NoUnit(t);
    GroupedDigits(t, "150", "000");
    SampleGroupedValue("150000");
    PlainAnswer(t, "150000", 150000, false);
  }

  /** The digits of a comma-grouped amount are its groups, run together. */
  lemma GroupedDigits(t: string, a: string, b: string)
    requires t == a + [','] + b && AllDigits(a) && AllDigits(b)
    ensures KeepDigits(t) == a + b
  {
    KeepDigitsAppend(a + [','], b);
    KeepDigitsAppend(a, [',']);
    KeepDigitsOfDigits(a);
    KeepDigitsOfDigits(b);
  }

  lemma SampleGroupedValue(d: string)
    requires d == "150000"
    ensures DigitsValue(d) == 150000
  {
    assert d[..1] == "1" && DigitsValue(d[..1]) == 1;
    assert d[..2][..1] == d[..1] && DigitsValue(d[..2]) == 15;
    assert d[..3][..2] == d[..2] && DigitsValue(d[..3]) == 150;
    assert d[..4][..3] == d[..3] && DigitsValue(d[..4]) == 1500;
    assert d[..5][..4] == d[..4] && DigitsValue(d[..5]) == 15000;
    assert d[..5] == d[..|d| - 1];
  }
}
