/**
 * The text-to-rows part of `parseCSV`: line breaks unified, the text cut into lines, the first
 * line read as the header and every other non-blank line as a row keyed by those headers.
 * A line is cut into fields by `parseCSVLine`, a character loop that follows the quoting of
 * section 2 of RFC 4180 loosely: a doubled quote inside quotes is one literal quote, any
 * other quote switches quoting on or off (also in the middle of a field), and every field is
 * trimmed.
 */
module CsvParser {
  import opened Wrappers
  import opened JsText
  import opened Seqs
  import opened Sorting
  import opened Spreadsheet

  // ---------------------------------------------------------------------------------------
  // Fields of one line

  /** The variables of the character loop: the fields closed so far, the field being read,
    * and whether the loop is inside quotes. */
  datatype LineState = LineState(result: seq<string>, current: string, inQuotes: bool)

  const Start: LineState := LineState([], "", false)

  /** How many characters one turn of the loop consumes: two for a doubled quote inside
    * quotes, one otherwise. */
  function Advance(s: string, st: LineState): (n: nat)
    requires s != []
    ensures 1 <= n <= |s|
  {
    if s[0] == '"' && st.inQuotes && |s| >= 2 && s[1] == '"' then 2 else 1
  }

  /** The state after one turn of the loop at the front of `s`. */
  function Next(s: string, st: LineState): LineState
    requires s != []
  {
    if s[0] == '"' then
      if st.inQuotes && |s| >= 2 && s[1] == '"' then st.(current := st.current + ['"'])
      else st.(inQuotes := !st.inQuotes)
    else if s[0] == ',' && !st.inQuotes then st.(result := st.result + [Trim(st.current)], current := "")
    else st.(current := st.current + [s[0]])
  }

  /** What the character loop makes of the characters `s` when it starts in state `st`. */
  function Scan(s: string, st: LineState): LineState
    decreases |s|
  {
    if s == [] then st else Scan(s[Advance(s, st)..], Next(s, st))
  }

  /** The fields of `line`: those the loop closed at commas, then the last one. */
  function LineFields(line: string): (r: seq<string>)
    ensures |r| >= 1
  {
    var st := Scan(line, Start);
    st.result + [Trim(st.current)]
  }

  /** `parseCSVLine(line)` */
  method ParseCsvLine(line: string) returns (result: seq<string>)
    ensures result == LineFields(line)
  {
    result := [];
    var current := "";
    var inQuotes := false;
    var i := 0;
    while i < |line|
      invariant 0 <= i <= |line|
      invariant Scan(line[i..], LineState(result, current, inQuotes)) == Scan(line, Start)
      decreases |line| - i
    {
      var c := line[i];
      if c == '"' {
        if inQuotes && i + 1 < |line| && line[i + 1] == '"' {
          assert line[i..][2..] == line[i + 2..];
          current := current + ['"'];
          i := i + 1;
        } else {
          assert line[i..][1..] == line[i + 1..];
          inQuotes := !inQuotes;
        }
      } else if c == ',' && !inQuotes {
        assert line[i..][1..] == line[i + 1..];
        result := result + [Trim(current)];
        current := "";
      } else {
        assert line[i..][1..] == line[i + 1..];
        current := current + [c];
      }
      i := i + 1;
    }
    assert line[i..] == [];
    result := result + [Trim(current)];
  }

  /** A string with no whitespace at either end, as `trim` leaves it. */
  predicate IsTrimmed(f: string) {
    f == [] || (!IsSpace(f[0]) && !IsSpace(f[|f| - 1]))
  }

  predicate AllTrimmed(fields: seq<string>) {
    forall k :: 0 <= k < |fields| ==> IsTrimmed(fields[k])
  }

  lemma TrimIsTrimmed(s: string)
    ensures IsTrimmed(Trim(s))
  {
    TrimSpec(s);
  }

  lemma {:induction false} ScanKeepsTrimmed(s: string, st: LineState)
    requires AllTrimmed(st.result)
    ensures AllTrimmed(Scan(s, st).result)
    decreases |s|
  {
    if s != [] {
      TrimIsTrimmed(st.current);
      ScanKeepsTrimmed(s[Advance(s, st)..], Next(s, st));
    }
  }

  /** Every field comes out trimmed of surrounding whitespace. */
  lemma FieldsAreTrimmed(line: string)
    ensures AllTrimmed(LineFields(line))
  {
    var st := Scan(line, Start);
    ScanKeepsTrimmed(line, Start);
    TrimIsTrimmed(st.current);
    var r := st.result + [Trim(st.current)];
    forall k | 0 <= k < |r|
      ensures IsTrimmed(r[k])
    {
      if k < |st.result| {
        assert r[k] == st.result[k];
      }
    }
  }

  /** How many times `c` occurs in `s`. */
  function Occurrences(s: string, c: char): nat
    decreases |s|
  {
    if s == [] then 0 else (if s[0] == c then 1 else 0) + Occurrences(s[1..], c)
  }

  lemma {:induction false} SplitLength(s: string, sep: char)
    ensures |Split(s, sep)| == 1 + Occurrences(s, sep)
    decreases |s|
  {
    if s != [] {
      SplitLength(s[1..], sep);
    }
  }

  /** The state after the closed pieces `pieces[..|pieces| - 1]` were trimmed onto `res`,
    * with the last piece still open and quoting off. */
  function Closed(res: seq<string>, pieces: seq<string>): LineState
    requires pieces != []
  {
    LineState(res + MapSeq(pieces[..|pieces| - 1], Trim), pieces[|pieces| - 1], false)
  }

  lemma ClosedCons(res: seq<string>, cur: string, p: seq<string>)
    requires p != []
    ensures Closed(res + [Trim(cur)], p) == Closed(res, [cur] + p)
  {
    var pieces := [cur] + p;
    assert pieces[..|pieces| - 1] == [cur] + p[..|p| - 1];
    assert MapSeq([cur] + p[..|p| - 1], Trim) == [Trim(cur)] + MapSeq(p[..|p| - 1], Trim);
  }

  /** The fields of a line the loop ends in state `Closed([], pieces)` are the pieces, trimmed. */
  lemma ClosedFields(pieces: seq<string>)
    requires pieces != []
    ensures Closed([], pieces).result + [Trim(Closed([], pieces).current)] == MapSeq(pieces, Trim)
  {
    assert pieces == pieces[..|pieces| - 1] + [pieces[|pieces| - 1]];
    assert MapSeq(pieces, Trim) == MapSeq(pieces[..|pieces| - 1], Trim) + [Trim(pieces[|pieces| - 1])];
  }

  lemma ScanComma(s: string, res: seq<string>, cur: string)
    requires s != [] && s[0] == ','
    ensures Scan(s, LineState(res, cur, false)) == Scan(s[1..], LineState(res + [Trim(cur)], "", false))
  {
  }

  lemma ScanToggle(s: string, st: LineState)
    requires s != [] && s[0] == '"' && !(st.inQuotes && |s| >= 2 && s[1] == '"')
    ensures Scan(s, st) == Scan(s[1..], st.(inQuotes := !st.inQuotes))
  {
  }

  lemma ScanDoubledQuote(s: string, st: LineState)
    requires |s| >= 2 && s[0] == '"' && s[1] == '"' && st.inQuotes
    ensures Scan(s, st) == Scan(s[2..], st.(current := st.current + ['"']))
  {
  }

  lemma ScanOther(s: string, st: LineState)
    requires s != [] && s[0] != '"' && (s[0] != ',' || st.inQuotes)
    ensures Scan(s, st) == Scan(s[1..], st.(current := st.current + [s[0]]))
  {
  }

  /** A run of characters without quotes (and, outside quotes, without commas) is appended to
    * the open field. */
  lemma {:induction false} ScanRun(t: string, rest: string, st: LineState)
    requires '"' !in t && (st.inQuotes || ',' !in t)
    ensures Scan(t + rest, st) == Scan(rest, st.(current := st.current + t))
    decreases |t|
  {
    if t == [] {
      assert t + rest == rest;
      assert st.current + t == st.current;
    } else {
      ScanOther(t + rest, st);
      assert (t + rest)[1..] == t[1..] + rest;
      ScanRun(t[1..], rest, st.(current := st.current + [t[0]]));
      assert st.current + [t[0]] + t[1..] == st.current + t;
    }
  }

  lemma {:induction false} ScanUnquoted(s: string, res: seq<string>, cur: string)
    requires '"' !in s && ',' !in cur
    ensures Scan(s, LineState(res, cur, false)) == Closed(res, Split(cur + s, ','))
    decreases |s|
  {
    if s == [] {
      assert cur + s == cur;
      SplitWithoutSeparator(cur, ',');
    } else if s[0] == ',' {
      ScanComma(s, res, cur);
      ScanUnquoted(s[1..], res + [Trim(cur)], "");
      assert "" + s[1..] == s[1..];
      assert cur + s == cur + [','] + s[1..];
      SplitAtFirst(cur, ',', s[1..]);
      ClosedCons(res, cur, Split(s[1..], ','));
    } else {
      ScanOther(s, LineState(res, cur, false));
      assert cur + s == (cur + [s[0]]) + s[1..];
      ScanUnquoted(s[1..], res, cur + [s[0]]);
    }
  }

  /** A line without quotes is cut at every comma and each piece trimmed, so it has one field
    * more than it has commas. */
  lemma UnquotedLine(line: string)
    requires '"' !in line
    ensures LineFields(line) == MapSeq(Split(line, ','), Trim)
    ensures |LineFields(line)| == 1 + Occurrences(line, ',')
  {
    ScanUnquoted(line, [], "");
    assert "" + line == line;
    ClosedFields(Split(line, ','));
    SplitLength(line, ',');
  }

  /** A field's text with every `"` doubled, as section 2 of RFC 4180 writes it inside quotes. */
  function Escaped(f: string): (r: string)
    ensures |r| >= |f|
    decreases |f|
  {
    if f == [] then [] else (if f[0] == '"' then "\"\"" else [f[0]]) + Escaped(f[1..])
  }

  function Quoted(f: string): string {
    "\"" + Escaped(f) + "\""
  }

  /** Every field quoted, joined by commas. */
  function QuotedLine(fields: seq<string>): string
    requires fields != []
    decreases |fields|
  {
    if |fields| == 1 then Quoted(fields[0]) else Quoted(fields[0]) + "," + QuotedLine(fields[1..])
  }

  /** One turn inside quotes over the first character of an escaped field. */
  lemma QuotedBodyStep(f: string, rest: string, st: LineState, s: string, tail: string)
    requires st.inQuotes && f != []
    requires s == Escaped(f) + "\"" + rest && tail == Escaped(f[1..]) + "\"" + rest
    ensures Scan(s, st) == Scan(tail, st.(current := st.current + [f[0]]))
  {
    if f[0] == '"' {
      assert s == "\"\"" + tail;
      ScanDoubledQuote(s, st);
      assert s[2..] == tail;
    } else {
      assert s == [f[0]] + tail;
      ScanOther(s, st);
      assert s[1..] == tail;
    }
  }

  lemma ScanClosingQuote(rest: string, st: LineState)
    requires st.inQuotes && (rest == [] || rest[0] == ',')
    ensures Scan("\"" + rest, st) == Scan(rest, st.(inQuotes := false))
  {
    ScanToggle("\"" + rest, st);
    assert ("\"" + rest)[1..] == rest;
  }

  /** Inside quotes, the loop reads an escaped field back and leaves quoting at its closing
    * quote (`s` is the escaped field, the quote and `rest`). */
  lemma {:induction false} ScanQuotedBody(f: string, rest: string, st: LineState, s: string)
    requires st.inQuotes
    requires rest == [] || rest[0] == ','
    requires s == Escaped(f) + "\"" + rest
    ensures Scan(s, st) == Scan(rest, LineState(st.result, st.current + f, false))
    decreases |f|
  {
    if f == [] {
      ScanClosingQuote(rest, st);
      assert s == "\"" + rest && st.current + f == st.current;
    } else {
      var tail := Escaped(f[1..]) + "\"" + rest;
      var next := st.(current := st.current + [f[0]]);
      assert Scan(s, st) == Scan(tail, next) by {
        QuotedBodyStep(f, rest, st, s, tail);
      }
      assert Scan(tail, next) == Scan(rest, LineState(st.result, st.current + f, false)) by {
        ScanQuotedBody(f[1..], rest, next, tail);
        assert st.current + [f[0]] + f[1..] == st.current + f;
      }
    }
  }

  /** The loop over one quoted field followed by `rest`. */
  lemma ScanQuotedField(f: string, rest: string, res: seq<string>)
    requires rest == [] || rest[0] == ','
    ensures Scan(Quoted(f) + rest, LineState(res, "", false)) == Scan(rest, LineState(res, f, false))
  {
    var s := Quoted(f) + rest;
    ScanToggle(s, LineState(res, "", false));
    assert s[1..] == Escaped(f) + "\"" + rest;
    ScanQuotedBody(f, rest, LineState(res, "", true), Escaped(f) + "\"" + rest);
    assert "" + f == f;
  }

  lemma {:induction false} ScanQuotedLine(fields: seq<string>, res: seq<string>)
    requires fields != []
    ensures Scan(QuotedLine(fields), LineState(res, "", false)) == Closed(res, fields)
    decreases |fields|
  {
    var f := fields[0];
    if |fields| == 1 {
      ScanQuotedField(f, [], res);
      assert Quoted(f) + [] == QuotedLine(fields);
    } else {
      var rest := "," + QuotedLine(fields[1..]);
      assert Quoted(f) + rest == QuotedLine(fields);
      ScanQuotedField(f, rest, res);
      ScanComma(rest, res, f);
      assert rest[1..] == QuotedLine(fields[1..]);
      ScanQuotedLine(fields[1..], res + [Trim(f)]);
      ClosedCons(res, f, fields[1..]);
      assert [f] + fields[1..] == fields;
    }
  }

  /** Writing fields quoted, with inner quotes doubled, and parsing the line gives back the
    * fields (trimmed): commas inside quotes do not cut a field. */
  lemma QuotedLineRoundTrip(fields: seq<string>)
    requires fields != []
    ensures LineFields(QuotedLine(fields)) == MapSeq(fields, Trim)
  {
    ScanQuotedLine(fields, []);
    ClosedFields(fields);
  }

  lemma ScanMidFieldQuotes(a: string, b: string, c: string, s: string, s1: string, s3: string)
    requires '"' !in a && '"' !in b && '"' !in c && ',' !in a && ',' !in c
    requires s == a + s1 && s1 == "\"" + b + s3 && s3 == "\"" + c
    ensures Scan(s, Start) == LineState([], a + b + c, false)
  {
    var inB, afterB := LineState([], a, true), LineState([], a + b, true);
    assert Scan(s, Start) == Scan(s1, LineState([], a, false)) by {
      ScanRun(a, s1, Start);
      assert "" + a == a;
    }
    assert Scan(s1, LineState([], a, false)) == Scan(b + s3, inB) by {
      ScanToggle(s1, LineState([], a, false));
      assert s1[1..] == b + s3;
    }
    assert Scan(b + s3, inB) == Scan(s3, afterB) by {
      ScanRun(b, s3, inB);
    }
    assert Scan(s3, afterB) == Scan(c, LineState([], a + b, false)) by {
      ScanToggle(s3, afterB);
      assert s3[1..] == c;
    }
    assert Scan(c, LineState([], a + b, false)) == LineState([], a + b + c, false) by {
      ScanRun(c, [], LineState([], a + b, false));
      assert c + [] == c;
    }
  }

  /** A quote in the middle of a field switches quoting on, so a comma after it does not cut,
    * and the quotes themselves are dropped: `a"b,c"d` is one field. */
  lemma QuoteTogglesMidField(a: string, b: string, c: string)
    requires '"' !in a && '"' !in b && '"' !in c && ',' !in a && ',' !in c
    ensures LineFields(a + "\"" + b + "\"" + c) == [Trim(a + b + c)]
  {
    var s3 := "\"" + c;
    var s1 := "\"" + b + s3;
    assert a + "\"" + b + "\"" + c == a + s1;
    ScanMidFieldQuotes(a, b, c, a + s1, s1, s3);
  }

  // ---------------------------------------------------------------------------------------
  // Rows

  /** `values[index] || ''` */
  function ValueAt(values: seq<string>, index: nat): (r: string)
    ensures index >= |values| ==> r == ""
  {
    if index < |values| then values[index] else ""
  }

  /** The object `headers.forEach((header, index) => row[header] = values[index] || '')`
    * builds: a later header of the same name overwrites an earlier one. */
  function RowOf(headers: seq<string>, values: seq<string>): Row
    decreases |headers|
  {
    if headers == [] then map[]
    else RowOf(headers[..|headers| - 1], values)[headers[|headers| - 1] := Str(ValueAt(values, |headers| - 1))]
  }

  /** The row has exactly the headers as keys. */
  lemma {:induction false} RowOfKeys(headers: seq<string>, values: seq<string>)
    ensures RowOf(headers, values).Keys == set h | h in headers
    decreases |headers|
  {
    if headers != [] {
      var init := headers[..|headers| - 1];
      RowOfKeys(init, values);
      assert headers == init + [headers[|headers| - 1]];
    }
  }

  /** A header holds the value at the position of its last occurrence. */
  lemma {:induction false} RowOfLastWrite(headers: seq<string>, values: seq<string>, k: nat)
    requires k < |headers|
    requires forall j :: k < j < |headers| ==> headers[j] != headers[k]
    ensures headers[k] in RowOf(headers, values) && RowOf(headers, values)[headers[k]] == Str(ValueAt(values, k))
    decreases |headers|
  {
    if k < |headers| - 1 {
      RowOfLastWrite(headers[..|headers| - 1], values, k);
    }
  }

  /** Values beyond the headers are dropped. */
  lemma RowIgnoresExtraValues(headers: seq<string>, values: seq<string>)
    requires |values| >= |headers|
    ensures RowOf(headers, values) == RowOf(headers, values[..|headers|])
  {
    RowPrefixValues(headers, values[..|headers|], values);
  }

  lemma {:induction false} RowPrefixValues(headers: seq<string>, values: seq<string>, longer: seq<string>)
    requires |headers| <= |values| <= |longer| && values == longer[..|values|]
    ensures RowOf(headers, values) == RowOf(headers, longer)
    decreases |headers|
  {
    if headers != [] {
      RowPrefixValues(headers[..|headers| - 1], values, longer);
    }
  }

  /** The row-building loop. */
  method BuildRow(headers: seq<string>, values: seq<string>) returns (row: Row)
    ensures row == RowOf(headers, values)
  {
    row := map[];
    for index := 0 to |headers|
      invariant row == RowOf(headers[..index], values)
    {
      assert headers[..index + 1][..index] == headers[..index];
      var value := if index < |values| then values[index] else "";
      row := row[headers[index] := Str(value)];
    }
    assert headers[..|headers|] == headers;
  }

  // ---------------------------------------------------------------------------------------
  // Lines

  /** `text.replace(/\r\n/g, '\n')` */
  function ReplaceCrLf(s: string): string
    decreases |s|
  {
    if s == [] then []
    else if |s| >= 2 && s[0] == '\r' && s[1] == '\n' then "\n" + ReplaceCrLf(s[2..])
    else [s[0]] + ReplaceCrLf(s[1..])
  }

  /** `.replace(/\r/g, '\n')` */
  function ReplaceCr(s: string): (r: string)
    ensures |r| == |s| && '\r' !in r
    ensures '\r' !in s ==> r == s
    ensures forall i :: 0 <= i < |s| && s[i] != '\r' ==> r[i] == s[i]
    ensures forall i :: 0 <= i < |s| ==> (r[i] == '\n' <==> s[i] == '\r' || s[i] == '\n')
  {
    seq(|s|, i requires 0 <= i < |s| => if s[i] == '\r' then '\n' else s[i])
  }

  /** Both rewrites: after them no carriage return is left. */
  function NormalizeNewlines(text: string): (r: string)
    ensures '\r' !in r
  {
    ReplaceCr(ReplaceCrLf(text))
  }

  lemma {:induction false} ReplaceCrLfWithoutCr(s: string)
    requires '\r' !in s
    ensures ReplaceCrLf(s) == s
    decreases |s|
  {
    if s != [] {
      ReplaceCrLfWithoutCr(s[1..]);
      assert [s[0]] + s[1..] == s;
    }
  }

  lemma ReplaceCrAppend(a: string, b: string)
    ensures ReplaceCr(a + b) == ReplaceCr(a) + ReplaceCr(b)
  {
  }

  /** Text with no carriage return is left as it is. */
  lemma NormalizeWithoutCr(text: string)
    requires '\r' !in text
    ensures NormalizeNewlines(text) == text
  {
    ReplaceCrLfWithoutCr(text);
  }

  lemma {:induction false} ReplaceCrLfBreak(a: string, brk: string, b: string)
    requires '\r' !in a
    requires brk == "\r\n" || (brk == "\r" && (b == [] || b[0] != '\n'))
    ensures ReplaceCrLf(a + brk + b) == a + ReplaceCrLf(brk + b)
    decreases |a|
  {
    if a != [] {
      assert (a + brk + b)[1..] == a[1..] + brk + b;
      ReplaceCrLfBreak(a[1..], brk, b);
      assert [a[0]] + a[1..] == a;
    } else {
      assert a + brk + b == brk + b;
    }
  }

  /** A Windows line break (CR LF) becomes a single LF. */
  lemma CrLfBecomesLf(a: string, b: string)
    requires '\r' !in a
    ensures NormalizeNewlines(a + "\r\n" + b) == a + "\n" + NormalizeNewlines(b)
  {
    ReplaceCrLfBreak(a, "\r\n", b);
    var s := "\r\n" + b;
    assert s[2..] == b;
    ReplaceCrAppend(a, "\n" + ReplaceCrLf(b));
    ReplaceCrAppend("\n", ReplaceCrLf(b));
    NormalizeWithoutCr(a);
  }

  /** A lone CR (not followed by LF) becomes an LF too. */
  lemma LoneCrBecomesLf(a: string, b: string)
    requires '\r' !in a
    requires b == [] || b[0] != '\n'
    ensures NormalizeNewlines(a + "\r" + b) == a + "\n" + NormalizeNewlines(b)
  {
    ReplaceCrLfBreak(a, "\r", b);
    var s := "\r" + b;
    assert s[1..] == b;
    assert ReplaceCrLf(s) == "\r" + ReplaceCrLf(b);
    ReplaceCrAppend(a, "\r" + ReplaceCrLf(b));
    ReplaceCrAppend("\r", ReplaceCrLf(b));
    NormalizeWithoutCr(a);
  }

  /** The lines of the text: line breaks unified, surrounding whitespace trimmed, cut at LF. */
  function TextLines(text: string): (r: seq<string>)
    ensures |r| >= 1
  {
    Split(Trim(NormalizeNewlines(text)), '\n')
  }

  // ---------------------------------------------------------------------------------------
  // The whole text

  const EmptyFileError: string := "CSVファイルが空です"
  const NeedsDataError: string := "CSVファイルにはヘッダー行とデータ行が必要です"

  /** The message for a data line with too few fields, `line` counted from 1. */
  function ShortRowError(line: nat, expected: nat, actual: nat): string {
    NatText(line) + "行目: カラム数が不足しています（期待: " + NatText(expected) + ", 実際: " + NatText(actual) + "）"
  }

  /** The warning for a data line with `extra` fields too many. */
  function ExtraFieldsWarning(line: nat, extra: nat): string {
    NatText(line) + "行目: 余分なフィールドが " + NatText(extra) + " 個あります（切り捨てました）"
  }

  /** A data line that is not blank once trimmed. */
  function NonBlank(): string -> bool {
    line => Trim(line) != ""
  }

  /** The fields of a trimmed data line. */
  function DataFields(line: string): seq<string> {
    LineFields(Trim(line))
  }

  /** The row a data line gives. */
  function DataRow(headers: seq<string>, line: string): Row {
    RowOf(headers, DataFields(line))
  }

  function LineRow(headers: seq<string>): string -> Row {
    line => DataRow(headers, line)
  }

  predicate IsShort(headers: seq<string>, line: string) {
    Trim(line) != "" && |DataFields(line)| < |headers|
  }

  predicate IsLong(headers: seq<string>, line: string) {
    Trim(line) != "" && |DataFields(line)| > |headers|
  }

  /** The first data line (index from 1) with too few fields. */
  function FirstShortLine(headers: seq<string>, lines: seq<string>, from: nat): (r: Option<nat>)
    requires 1 <= from <= |lines|
    ensures r.Some? ==> from <= r.value < |lines|
    decreases |lines| - from
  {
    if from == |lines| then None
    else if IsShort(headers, lines[from]) then Some(from)
    else FirstShortLine(headers, lines, from + 1)
  }

  /** The search finds the first short line at or after `from`, or there is none. */
  lemma {:induction false} FirstShortLineSpec(headers: seq<string>, lines: seq<string>, from: nat)
    requires 1 <= from <= |lines|
    ensures var r := FirstShortLine(headers, lines, from);
      (r.Some? ==> IsShort(headers, lines[r.value]) && forall k :: from <= k < r.value ==> !IsShort(headers, lines[k])) &&
      (r.None? ==> forall k :: from <= k < |lines| ==> !IsShort(headers, lines[k]))
    decreases |lines| - from
  {
    if from < |lines| && !IsShort(headers, lines[from]) {
      FirstShortLineSpec(headers, lines, from + 1);
    }
  }

  /** The warnings for the data lines before `upTo`, in line order. */
  function ExtraFieldWarnings(headers: seq<string>, lines: seq<string>, upTo: nat): (r: seq<string>)
    requires 1 <= upTo <= |lines|
    decreases upTo
  {
    if upTo == 1 then []
    else
      ExtraFieldWarnings(headers, lines, upTo - 1) +
      (if IsLong(headers, lines[upTo - 1])
       then [ExtraFieldsWarning(upTo, |DataFields(lines[upTo - 1])| - |headers|)]
       else [])
  }

  /** The rows of the non-blank lines among `ls`, in line order. */
  function KeptRows(headers: seq<string>, ls: seq<string>): seq<Row>
    decreases |ls|
  {
    if ls == [] then []
    else KeptRows(headers, ls[..|ls| - 1]) + (if Trim(ls[|ls| - 1]) != "" then [DataRow(headers, ls[|ls| - 1])] else [])
  }

  /** The kept rows are `lines.filter(nonBlank).map(row)`: the blank lines dropped and every
    * other line turned into its row. */
  lemma {:induction false} KeptRowsAreFilterMap(headers: seq<string>, ls: seq<string>)
    ensures KeptRows(headers, ls) == MapSeq(Filter(ls, NonBlank()), LineRow(headers))
    decreases |ls|
  {
    if ls != [] {
      var init, last := ls[..|ls| - 1], ls[|ls| - 1];
      KeptRowsAreFilterMap(headers, init);
      MapSeqAppend(Filter(init, NonBlank()), if Trim(last) != "" then [last] else [], LineRow(headers));
    }
  }

  /** One kept row per non-blank line. */
  lemma {:induction false} KeptRowCount(headers: seq<string>, ls: seq<string>)
    ensures |KeptRows(headers, ls)| == Count(ls, NonBlank()) <= |ls|
    decreases |ls|
  {
    if ls != [] {
      KeptRowCount(headers, ls[..|ls| - 1]);
    }
  }

  /** The data lines read against `headers`: the first line with too few fields fails, and
    * otherwise every non-blank line gives a row, in line order. */
  function DataRows(headers: seq<string>, lines: seq<string>): Result<seq<Row>, string>
    requires |lines| >= 1
  {
    match FirstShortLine(headers, lines, 1)
    case Some(i) => Failure(ShortRowError(i + 1, |headers|, |DataFields(lines[i])|))
    case None => Success(KeptRows(headers, lines[1..]))
  }

  /** What parsing the decoded text gives: an empty text and a text of one line are failures,
    * and otherwise the first line gives the headers and the others the rows. */
  function ParsedText(text: string, fileName: string, now: int): Result<Dataset, string> {
    if AllSpace(text) then Failure(EmptyFileError)
    else
      var lines := TextLines(text);
      if |lines| < 2 then Failure(NeedsDataError)
      else
        var headers := LineFields(lines[0]);
        match DataRows(headers, lines)
        case Failure(e) => Failure(e)
        case Success(rows) => Success(Dataset(headers, rows, fileName, now))
  }

  lemma MapSeqAppend<A, B>(s: seq<A>, t: seq<A>, f: A -> B)
    ensures MapSeq(s + t, f) == MapSeq(s, f) + MapSeq(t, f)
  {
  }

  lemma KeptRowsStep(headers: seq<string>, lines: seq<string>, i: nat)
    requires 1 <= i < |lines|
    ensures KeptRows(headers, lines[1..i + 1]) ==
      KeptRows(headers, lines[1..i]) + (if Trim(lines[i]) != "" then [DataRow(headers, lines[i])] else [])
  {
    assert lines[1..i + 1][..i - 1] == lines[1..i];
  }

  /** One turn of the loop over the data lines, numbered from 1 in messages: a blank line
    * gives nothing, a line with too few fields the error, and any other line its row, with a
    * warning when it has too many fields. */
  method ReadDataLine(headers: seq<string>, line: string, lineNumber: nat) returns (outcome: Result<seq<Row>, string>, warning: seq<string>)
    ensures IsShort(headers, line) ==> outcome == Failure(ShortRowError(lineNumber, |headers|, |DataFields(line)|))
    ensures !IsShort(headers, line) ==> outcome == Success(if Trim(line) != "" then [DataRow(headers, line)] else [])
    ensures warning == if IsLong(headers, line) then [ExtraFieldsWarning(lineNumber, |DataFields(line)| - |headers|)] else []
  {
    warning := [];
    var trimmed := Trim(line);
    if trimmed == "" {
      return Success([]), [];
    }
    var values := ParseCsvLine(trimmed);
    if |values| != |headers| {
      if |values| < |headers| {
        return Failure(ShortRowError(lineNumber, |headers|, |values|)), [];
      } else {
        warning := [ExtraFieldsWarning(lineNumber, |values| - |headers|)];
      }
    }
    var row := BuildRow(headers, values);
    outcome := Success([row]);
  }

  /** The loop over the data lines, with the warnings it collects (dropped when it fails). */
  method ParseDataLines(headers: seq<string>, lines: seq<string>) returns (rows: Result<seq<Row>, string>, warnings: seq<string>)
    requires |lines| >= 1
    ensures rows == DataRows(headers, lines)
    ensures rows.Failure? ==> warnings == []
    ensures rows.Success? ==> warnings == ExtraFieldWarnings(headers, lines, |lines|)
  {
    var kept: seq<Row> := [];
    warnings := [];
    for i := 1 to |lines|
      invariant kept == KeptRows(headers, lines[1..i])
      invariant warnings == ExtraFieldWarnings(headers, lines, i)
      invariant FirstShortLine(headers, lines, 1) == FirstShortLine(headers, lines, i)
    {
      KeptRowsStep(headers, lines, i);
      var outcome, warning := ReadDataLine(headers, lines[i], i + 1);
      if outcome.Failure? {
        DataRowsAtShortLine(headers, lines, i);
        return Failure(outcome.error), [];
      }
      kept := kept + outcome.value;
      warnings := warnings + warning;
    }
    DataRowsWithoutShortLine(headers, lines);
    rows := Success(kept);
  }

  lemma DataRowsAtShortLine(headers: seq<string>, lines: seq<string>, i: nat)
    requires 1 <= i < |lines| && IsShort(headers, lines[i])
    requires FirstShortLine(headers, lines, 1) == FirstShortLine(headers, lines, i)
    ensures DataRows(headers, lines) == Failure(ShortRowError(i + 1, |headers|, |DataFields(lines[i])|))
  {
  }

  lemma DataRowsWithoutShortLine(headers: seq<string>, lines: seq<string>)
    requires |lines| >= 1 && FirstShortLine(headers, lines, 1) == FirstShortLine(headers, lines, |lines|)
    ensures DataRows(headers, lines) == Success(KeptRows(headers, lines[1..|lines|]))
  {
    assert lines[1..|lines|] == lines[1..];
  }

  /** `parseCSV` from the decoded text on: the result, and the warnings it writes to the
    * console (none when it fails). `now` is the time `new Date()` reads. */
  method ParseCsv(text: string, fileName: string, now: int) returns (result: Result<Dataset, string>, warnings: seq<string>)
    ensures result == ParsedText(text, fileName, now)
    ensures result.Failure? ==> warnings == []
    ensures result.Success? ==> warnings == ExtraFieldWarnings(result.value.headers, TextLines(text), |TextLines(text)|)
  {
    TrimEmptyIffAllSpace(text);
    if text == "" || Trim(text) == "" {
      return Failure(EmptyFileError), [];
    }
    var normalizedText := NormalizeNewlines(text);
    var lines := Split(Trim(normalizedText), '\n');
    if |lines| < 2 {
      return Failure(NeedsDataError), [];
    }
    var headers := ParseCsvLine(lines[0]);
    var rows;
    rows, warnings := ParseDataLines(headers, lines);
    if rows.Failure? {
      return Failure(rows.error), [];
    }
    result := Success(Dataset(headers, rows.value, fileName, now));
  }

  /** When the data lines are accepted, every non-blank one is a row, in line order. */
  lemma DataRowCount(headers: seq<string>, lines: seq<string>)
    requires |lines| >= 1 && DataRows(headers, lines).Success?
    ensures |DataRows(headers, lines).value| == Count(lines[1..], NonBlank()) <= |lines| - 1
  {
    KeptRowCount(headers, lines[1..]);
  }

  /** Every row has exactly the header keys; a header that occurs once holds the field at its
    * position, or `''` when the line has no field there. */
  lemma DataRowFields(headers: seq<string>, lines: seq<string>, j: nat, k: nat)
    requires |lines| >= 1 && DataRows(headers, lines).Success?
    requires j < |Filter(lines[1..], NonBlank())| && k < |headers|
    requires forall m :: 0 <= m < |headers| && m != k ==> headers[m] != headers[k]
    ensures var rows := DataRows(headers, lines).value;
      var fields := DataFields(Filter(lines[1..], NonBlank())[j]);
      j < |rows| && rows[j].Keys == (set h | h in headers) &&
      headers[k] in rows[j] && rows[j][headers[k]] == Str(ValueAt(fields, k))
  {
    var kept := Filter(lines[1..], NonBlank());
    KeptRowsAreFilterMap(headers, lines[1..]);
    assert DataRows(headers, lines).value[j] == DataRow(headers, kept[j]);
    RowOfKeys(headers, DataFields(kept[j]));
    RowOfLastWrite(headers, DataFields(kept[j]), k);
  }

  /** A data line with too few fields fails the whole parse, naming the first such line. */
  lemma ShortLineFails(headers: seq<string>, lines: seq<string>, i: nat)
    requires 1 <= i < |lines| && IsShort(headers, lines[i])
    ensures DataRows(headers, lines).Failure?
    ensures exists k :: (1 <= k <= i && IsShort(headers, lines[k]) &&
      DataRows(headers, lines) == Failure(ShortRowError(k + 1, |headers|, |DataFields(lines[k])|)))
  {
    FirstShortLineSpec(headers, lines, 1);
    var k := FirstShortLine(headers, lines, 1).value;
    assert 1 <= k <= i;
  }

  /** A data line with too many fields does not fail: its row takes the first fields only. */
  lemma LongLineTruncated(headers: seq<string>, line: string)
    requires IsLong(headers, line)
    ensures DataRow(headers, line) == RowOf(headers, DataFields(line)[..|headers|])
  {
    RowIgnoresExtraValues(headers, DataFields(line));
  }
}
