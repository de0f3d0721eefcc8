/**
 * `convertToUpperLimit` of the script that generated the rent conversion table: a band text
 * such as `50,001~60,000円` becomes the upper end of the band, an open band such as `401,000~`
 * its lower end, and an entry whose text reads as no number (`NaN`) is dropped from the table.
 */
module RentMapGenerator {
  import opened Wrappers
  import opened JsText
  import RentAnalytics

  const NoneText: string := "なし"

  /** `/^\d{3},\d{3}~$/`: three digits, a comma, three digits and a tilde, and nothing else. */
  predicate IsSixDigitOpenBand(v: string) {
    |v| == 8 && IsDigit(v[0]) && IsDigit(v[1]) && IsDigit(v[2]) && v[3] == ',' &&
    IsDigit(v[4]) && IsDigit(v[5]) && IsDigit(v[6]) && v[7] == '~'
  }

  /** `x || 0`: `NaN` and zero both become 0. */
  function OrZero(x: Option<int>): int {
    if x.Some? then x.value else 0
  }

  /** `s.replace(/^~/, '')` */
  function DropLeadingTilde(s: string): string {
    if s != [] && s[0] == '~' then s[1..] else s
  }

  /** `convertToUpperLimit(v)`, with `None` for `NaN`. A text with one `~` gives the number after
    * it, or the one before it when nothing follows; every other text gives its leading number
    * or 0. Only a text with exactly one `~` can give `NaN`. */
  function ConvertToUpperLimit(v: string): (r: Option<int>)
    ensures r.None? ==> '~' in v && |Split(v, '~')| == 2
  {
    if v == NoneText then Some(0)
    else if '~' in v then
      var parts := Split(v, '~');
      if |parts| == 2 then
        var upper := Trim(parts[1]);
        if upper != "" then ParseInt(RemoveAll(upper, ","))
        else ParseInt(DropLeadingTilde(RemoveAll(parts[0], ",")))
      else Some(OrZero(ParseInt(RemoveAll(v, ","))))
    else if IsSixDigitOpenBand(v) then Some(500000)
    else Some(OrZero(ParseInt(RemoveAll(v, ","))))
  }

  /** `Object.entries(map).map(...).filter(...)`: every entry converted, those giving `NaN`
    * dropped, in the order of the entries. */
  function UpperLimitEntries(entries: seq<(string, string)>): (r: seq<(string, int)>)
    ensures |r| <= |entries|
    decreases |entries|
  {
    if entries == [] then []
    else
      var last := entries[|entries| - 1];
      UpperLimitEntries(entries[..|entries| - 1]) +
      match ConvertToUpperLimit(last.1)
      case Some(n) => [(last.0, n)]
      case None => []
  }

  // ---------------------------------------------------------------------------------------
  // Properties

  /** A text with exactly one tilde splits into the parts before and after it. */
  lemma OneTildeSplit(v: string, a: string, b: string)
    requires v == a + "~" + b && '~' !in a && '~' !in b
    ensures '~' in v && Split(v, '~') == [a, b]
  {
    assert v == a + ['~'] + b;
    SplitAtFirst(a, '~', b);
    SplitWithoutSeparator(b, '~');
    assert v[|a|] == '~';
  }

  /** A text with exactly one tilde gives the number after it, or the number before it when
    * only whitespace follows. */
  lemma OneTilde(v: string, a: string, b: string)
    requires v == a + "~" + b && '~' !in a && '~' !in b
    ensures ConvertToUpperLimit(v) ==
      if Trim(b) != "" then ParseInt(RemoveAll(Trim(b), ",")) else ParseInt(DropLeadingTilde(RemoveAll(a, ",")))
  {
    OneTildeSplit(v, a, b);
    assert v != NoneText by {
      assert '~' !in NoneText;
    }
  }

  /** The open-band pattern can never be reached: every text it matches holds a tilde and so
    * takes the first branch, which reads the lower end instead of 500000. */
  lemma SixDigitBandTakesLowerEnd(v: string)
    requires IsSixDigitOpenBand(v)
    ensures '~' in v
    ensures ConvertToUpperLimit(v) == Some(DigitsValue(v[..3] + v[4..7]))
  {
    var a, b, s := v[..3], v[4..7], v[..7];
    assert AllDigits(a) && AllDigits(b);
    assert s == a + [','] + b;
    assert '~' !in a && '~' !in b;
    assert v == s + "~" + [];
    assert Trim([]) == [] by {
      TrimSpec([]);
    }
    OneTilde(v, s, []);
    GroupDigits(s, a, b);
    ParseIntOfDigits(a + b);
  }

  /** Two digit groups around a comma lose the comma. */
  lemma GroupDigits(s: string, a: string, b: string)
    requires s == a + [','] + b && AllDigits(a) && AllDigits(b) && a != []
    ensures RemoveAll(s, ",") == a + b && DropLeadingTilde(a + b) == a + b
  {
    RemoveAllOneChar(s, ',');
    RemoveCharsAppend(a + [','], b, {','});
    RemoveCharsAppend(a, [','], {','});
    RemoveCharsAbsent(a, {','});
    RemoveCharsAbsent(b, {','});
    assert RemoveChars([','], {','}) == [];
    assert (a + b)[0] == a[0];
  }

  /** So `401,000~` reads as 401000, not as 500000. */
  lemma OpenBandExample(v: string)
    requires v == "401,000~"
    ensures ConvertToUpperLimit(v) == Some(401000)
  {
    SixDigitBandTakesLowerEnd(v);
    assert v[..3] + v[4..7] == "401000";
    ExampleValue("401000");
  }

  lemma ExampleValue(d: string)
    requires d == "401000"
    ensures DigitsValue(d) == 401000
  {
    assert d[..1] == "4" && DigitsValue(d[..1]) == 4;
    assert d[..2][..1] == d[..1] && DigitsValue(d[..2]) == 40;
    assert d[..3][..2] == d[..2] && DigitsValue(d[..3]) == 401;
    assert d[..4][..3] == d[..3] && DigitsValue(d[..4]) == 4010;
    assert d[..5][..4] == d[..4] && DigitsValue(d[..5]) == 40100;
    assert d[..5] == d[..|d| - 1];
  }

  lemma NoneTextIsZero(v: string)
    requires v == NoneText
    ensures ConvertToUpperLimit(v) == Some(0)
  {
  }

  /** A closed band `A~B` (amounts written with separators, each optionally followed by 円)
    * gives its upper end `B`. */
  lemma ClosedBandGivesUpper(x: nat, y: nat, u1: string, u2: string)
    requires u1 in {"", "円"} && u2 in {"", "円"}
    ensures ConvertToUpperLimit(RentAnalytics.GroupedText(x) + u1 + "~" + RentAnalytics.GroupedText(y) + u2) == Some(y)
  {
    var a := RentAnalytics.GroupedText(x) + u1;
    AmountWithUnit(x, u1);
    AmountAfterTilde(a + "~" + RentAnalytics.GroupedText(y) + u2, a, y, u2);
  }

  /** A text with one tilde followed by an amount gives the amount. */
  lemma AmountAfterTilde(v: string, a: string, y: nat, u: string)
    requires u in {"", "円"} && '~' !in a && v == a + "~" + (RentAnalytics.GroupedText(y) + u)
    ensures ConvertToUpperLimit(v) == Some(y)
  {
    var b := RentAnalytics.GroupedText(y) + u;
    AmountWithUnit(y, u);
    OneTilde(v, a, b);
    TrimIdentity(b);
    AmountReadsBack(y, u);
  }

  /** An open band `A~` gives its lower end `A`. */
  lemma OpenBandGivesLower(x: nat, u: string)
    requires u in {"", "円"}
    ensures ConvertToUpperLimit(RentAnalytics.GroupedText(x) + u + "~") == Some(x)
  {
    var a := RentAnalytics.GroupedText(x) + u;
    AmountWithUnit(x, u);
    assert a + "~" == a + "~" + [];
    assert Trim([]) == [] by {
      TrimSpec([]);
    }
    OneTilde(a + "~", a, []);
    AmountReadsBack(x, u);
  }

  /** A band with no lower end `~B` gives `B`. */
  lemma UpToGivesUpper(y: nat, u: string)
    requires u in {"", "円"}
    ensures ConvertToUpperLimit("~" + RentAnalytics.GroupedText(y) + u) == Some(y)
  {
    AmountAfterTilde("~" + RentAnalytics.GroupedText(y) + u, [], y, u);
  }

  /** A single amount gives itself. */
  lemma AmountGivesItself(x: nat, u: string)
    requires u in {"", "円"}
    ensures ConvertToUpperLimit(RentAnalytics.GroupedText(x) + u) == Some(x)
  {
    var a := RentAnalytics.GroupedText(x) + u;
    AmountWithUnit(x, u);
    assert a != NoneText by {
      assert a[0] != NoneText[0];
    }
    assert !IsSixDigitOpenBand(a);
    AmountReadsBack(x, u);
  }

  /** Every generated entry comes from an entry whose text gives that number. */
  lemma {:induction false} UpperLimitEntriesSound(entries: seq<(string, string)>, k: string, n: int)
    requires (k, n) in UpperLimitEntries(entries)
    ensures exists j :: 0 <= j < |entries| && entries[j].0 == k && ConvertToUpperLimit(entries[j].1) == Some(n)
    decreases |entries|
  {
    var init, last := entries[..|entries| - 1], entries[|entries| - 1];
    if (k, n) in UpperLimitEntries(init) {
      UpperLimitEntriesSound(init, k, n);
      var j :| 0 <= j < |init| && init[j].0 == k && ConvertToUpperLimit(init[j].1) == Some(n);
      assert entries[j] == init[j];
    } else {
      assert last.0 == k && ConvertToUpperLimit(last.1) == Some(n);
    }
  }

  /** Every entry whose text gives a number is generated, with that number. */
  lemma {:induction false} UpperLimitEntriesComplete(entries: seq<(string, string)>, j: int)
    requires 0 <= j < |entries| && ConvertToUpperLimit(entries[j].1).Some?
    ensures (entries[j].0, ConvertToUpperLimit(entries[j].1).value) in UpperLimitEntries(entries)
    decreases |entries|
  {
    var init := entries[..|entries| - 1];
    if j < |init| {
      UpperLimitEntriesComplete(init, j);
      assert init[j] == entries[j];
    }
  }

  /** Nothing is dropped when every text gives a number; never more entries come out than go in. */
  lemma {:induction false} UpperLimitEntriesLength(entries: seq<(string, string)>)
    ensures |UpperLimitEntries(entries)| <= |entries|
    ensures (forall j :: 0 <= j < |entries| ==> ConvertToUpperLimit(entries[j].1).Some?) ==>
      |UpperLimitEntries(entries)| == |entries|
    decreases |entries|
  {
    if entries != [] {
      var init := entries[..|entries| - 1];
      UpperLimitEntriesLength(init);
      assert forall j :: 0 <= j < |init| ==> init[j] == entries[j];
    }
  }

  // ---------------------------------------------------------------------------------------
  // Amounts written with separators

  /** `s.replace(/,/g, '')` deletes every comma. */
  lemma {:induction false} RemoveAllOneChar(s: string, c: char)
    ensures RemoveAll(s, [c]) == RemoveChars(s, {c})
    decreases |s|
  {
    if s != [] {
      RemoveAllOneChar(s[1..], c);
      assert StartsWith(s, [c]) <==> s[0] == c;
      assert s[1..] == s[|[c]|..];
    }
  }

  /** An amount with separators, optionally followed by 円, starts with a digit, holds no tilde
    * and no whitespace at its ends. */
  lemma AmountWithUnit(x: nat, u: string)
    requires u in {"", "円"}
    ensures var a := RentAnalytics.GroupedText(x) + u;
      a != [] && IsDigit(a[0]) && '~' !in a && !IsSpace(a[|a| - 1])
  {
    var g := RentAnalytics.GroupedText(x);
    RentAnalytics.GroupedTextRoundTrip(x);
    RentAnalytics.GroupedChars(g);
    var a := g + u;
    assert a[0] == g[0];
    assert '~' !in g;
  }

  /** Without its commas, an amount with separators and an optional 円 parses to the amount. */
  lemma AmountReadsBack(x: nat, u: string)
    requires u in {"", "円"}
    ensures var a := RentAnalytics.GroupedText(x) + u;
      ParseInt(RemoveAll(a, ",")) == Some(x) && ParseInt(DropLeadingTilde(RemoveAll(a, ","))) == Some(x)
  {
    var g := RentAnalytics.GroupedText(x);
    var a := g + u;
    RentAnalytics.GroupedTextRoundTrip(x);
    RentAnalytics.GroupedDigits(g);
    var d := RemoveChars(g, {','});
    ParseIntOfDigits(d);
    RemoveAllOneChar(a, ',');
    RemoveCharsAppend(g, u, {','});
    RemoveCharsAbsent(u, {','});
    assert RemoveAll(a, ",") == d + u;
    DigitsThenUnit(d, u);
  }

  /** `parseInt` stops at the first character that is not a digit. */
  lemma DigitsThenUnit(d: string, u: string)
    requires d != [] && AllDigits(d) && u in {"", "円"}
    ensures ParseInt(d + u) == ParseInt(d) && DropLeadingTilde(d + u) == d + u
  {
    LeadingDigitsOfDigits(d);
    LeadingDigitsAppend(d, u);
    assert !IsSpace((d + u)[0]) && !IsSpace(d[0]);
  }
}
