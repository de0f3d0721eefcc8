/**
 * The text-to-rows part of `loadFromGoogleSheets`: the spreadsheet's CSV export cut into
 * lines at LF only, the header of the rent answers renamed, data lines with too few fields
 * skipped (with a console warning) instead of failing, and the rent answers of the rows
 * normalised into bands. Its line parser is the same character loop as the CSV upload's,
 * `CsvParser.ParseCsvLine`.
 */
module SheetsLoader {
  import opened Wrappers
  import opened JsText
  import opened Seqs
  import opened Sorting
  import opened Spreadsheet
  import opened CsvParser
  import RentNormalizer

  const SheetName: string := "賃貸フォーム回答統計"
  /** The header the form writes for the rent answers, with ASCII parentheses. */
  const SheetRentHeader: string := "希望家賃(管理費込)"
  /** The header the rest of the application reads them under. */
  const RentLimitHeader: string := "希望家賃上限（管理費込）"
  const LoadFailurePrefix: string := "スプレッドシートの読み込みに失敗しました: "
  const NoDataMessage: string := "スプレッドシートにデータが見つかりません"

  /** `text.trim().split('\n')`: no CR handling here, unlike the CSV upload. */
  function SheetLines(text: string): (r: seq<string>)
    ensures |r| >= 1
  {
    Split(Trim(text), '\n')
  }

  /** The message for a skipped data line, `line` counted from 1. */
  function SkippedLineWarning(line: nat): string {
    NatText(line) + "行目: カラム数が不足しています（スキップしました）"
  }

  // ---------------------------------------------------------------------------------------
  // Headers

  function RenameHeader(header: string): string {
    if header == SheetRentHeader then RentLimitHeader else header
  }

  /** `headers.map(...)` with the one rename. */
  function RenamedHeaders(headers: seq<string>): seq<string> {
    MapSeq(headers, RenameHeader)
  }

  /** Only the header equal to the form's rent header changes, to the rent-limit header; the
    * order and every other header stay as they were. */
  lemma RenameOnlyRentHeader(headers: seq<string>)
    ensures |RenamedHeaders(headers)| == |headers|
    ensures forall k :: 0 <= k < |headers| ==>
      (RenamedHeaders(headers)[k] != headers[k] <==> headers[k] == SheetRentHeader) &&
      (headers[k] == SheetRentHeader ==> RenamedHeaders(headers)[k] == RentLimitHeader)
    ensures SheetRentHeader !in headers ==> RenamedHeaders(headers) == headers
  {
  }

  lemma SheetRentHeaderIsRentColumn()
    ensures RentNormalizer.IsRentColumn(SheetRentHeader)
  {
    assert OccursAt(SheetRentHeader, "希望家賃", 0);
  }

  lemma RentLimitHeaderIsRentColumn()
    ensures RentNormalizer.IsRentColumn(RentLimitHeader)
  {
    assert OccursAt(RentLimitHeader, "希望家賃", 0);
  }

  /** The rename keeps the rent columns: a header is a rent column after it exactly when it was
    * one before, so the normalisation that follows treats the same columns. */
  lemma RenameKeepsRentColumns(headers: seq<string>)
    ensures forall k :: 0 <= k < |headers| ==>
      (RentNormalizer.IsRentColumn(RenamedHeaders(headers)[k]) <==> RentNormalizer.IsRentColumn(headers[k]))
  {
    SheetRentHeaderIsRentColumn();
    RentLimitHeaderIsRentColumn();
  }

  // ---------------------------------------------------------------------------------------
  // Data lines

  /** A data line that gives a row: not blank, and with at least as many fields as headers. */
  predicate IsUsable(headers: seq<string>, line: string) {
    Trim(line) != "" && |DataFields(line)| >= |headers|
  }

  function Usable(headers: seq<string>): string -> bool {
    line => IsUsable(headers, line)
  }

  /** The rows of the usable lines among `ls`, in line order. */
  function UsableRows(headers: seq<string>, ls: seq<string>): seq<Row>
    decreases |ls|
  {
    if ls == [] then []
    else UsableRows(headers, ls[..|ls| - 1]) + (if IsUsable(headers, ls[|ls| - 1]) then [DataRow(headers, ls[|ls| - 1])] else [])
  }

  /** The warnings for the data lines before `upTo`, in line order. */
  function SkipWarnings(headers: seq<string>, lines: seq<string>, upTo: nat): seq<string>
    requires 1 <= upTo <= |lines|
    decreases upTo
  {
    if upTo == 1 then []
    else SkipWarnings(headers, lines, upTo - 1) + (if IsShort(headers, lines[upTo - 1]) then [SkippedLineWarning(upTo)] else [])
  }

  lemma UsableRowsStep(headers: seq<string>, lines: seq<string>, i: nat)
    requires 1 <= i < |lines|
    ensures UsableRows(headers, lines[1..i + 1]) ==
      UsableRows(headers, lines[1..i]) + (if IsUsable(headers, lines[i]) then [DataRow(headers, lines[i])] else [])
  {
    assert lines[1..i + 1][..i - 1] == lines[1..i];
  }

  /** One turn of the loop over the data lines: the row of a usable line, a warning for a
    * line with too few fields, nothing for a blank line. */
  method ReadSheetLine(headers: seq<string>, line: string, lineNumber: nat) returns (row: seq<Row>, warning: seq<string>)
    ensures row == if IsUsable(headers, line) then [DataRow(headers, line)] else []
    ensures warning == if IsShort(headers, line) then [SkippedLineWarning(lineNumber)] else []
  {
    var trimmed := Trim(line);
    if trimmed == "" {
      return [], [];
    }
    var values := ParseCsvLine(trimmed);
    if |values| < |headers| {
      return [], [SkippedLineWarning(lineNumber)];
    }
    var r := BuildRow(headers, values);
    row, warning := [r], [];
  }

  /** The loop over the data lines, before the rent normalisation. */
  method SheetDataLines(headers: seq<string>, lines: seq<string>) returns (rows: seq<Row>, warnings: seq<string>)
    requires |lines| >= 1
    ensures rows == UsableRows(headers, lines[1..])
    ensures warnings == SkipWarnings(headers, lines, |lines|)
  {
    rows := [];
    warnings := [];
    for i := 1 to |lines|
      invariant rows == UsableRows(headers, lines[1..i])
      invariant warnings == SkipWarnings(headers, lines, i)
    {
      UsableRowsStep(headers, lines, i);
      var row, warning := ReadSheetLine(headers, lines[i], i + 1);
      rows := rows + row;
      warnings := warnings + warning;
    }
    assert lines[1..|lines|] == lines[1..];
  }

  /** `loadFromGoogleSheets` from the fetched text on, with the warnings it writes to the
    * console; `now` is the time `new Date()` reads. */
  method LoadSheetText(text: string, now: int) returns (result: Result<Dataset, string>, warnings: seq<string>)
    ensures |SheetLines(text)| < 2 ==> result == Failure(LoadFailurePrefix + NoDataMessage) && warnings == []
    ensures |SheetLines(text)| >= 2 ==>
      var lines := SheetLines(text);
      var headers := RenamedHeaders(LineFields(lines[0]));
      var rows := UsableRows(headers, lines[1..]);
      result.Success? && result.value.headers == headers &&
      result.value.fileName == SheetName && result.value.uploadedAt == now &&
      |result.value.rows| == |rows| &&
      (forall i :: 0 <= i < |rows| ==> RentNormalizer.NormalizedRow(rows[i], result.value.rows[i], RentNormalizer.RentColumns(headers))) &&
      ((forall k :: 0 <= k < |headers| ==> !RentNormalizer.IsRentColumn(headers[k])) ==> result.value.rows == rows) &&
      warnings == SkipWarnings(headers, lines, |lines|)
  {
    var lines := Split(Trim(text), '\n');
    if |lines| < 2 {
      return Failure(LoadFailurePrefix + NoDataMessage), [];
    }
    var parsed := ParseCsvLine(lines[0]);
    var headers := RenamedHeaders(parsed);
    var rows;
    rows, warnings := SheetDataLines(headers, lines);
    var normalizedRows := RentNormalizer.NormalizeRentInData(rows, headers);
    result := Success(Dataset(headers, normalizedRows, SheetName, now));
  }

  // ---------------------------------------------------------------------------------------
  // Properties of the data lines

  /** The rows are `lines.filter(usable).map(row)`. */
  lemma {:induction false} UsableRowsAreFilterMap(headers: seq<string>, ls: seq<string>)
    ensures UsableRows(headers, ls) == MapSeq(Filter(ls, Usable(headers)), LineRow(headers))
    decreases |ls|
  {
    if ls != [] {
      var init, last := ls[..|ls| - 1], ls[|ls| - 1];
      UsableRowsAreFilterMap(headers, init);
      MapSeqAppend(Filter(init, Usable(headers)), if IsUsable(headers, last) then [last] else [], LineRow(headers));
    }
  }

  /** Every non-blank data line gives either a row or a warning, never both. */
  lemma {:induction false} RowsAndSkipsPartition(headers: seq<string>, lines: seq<string>, upTo: nat)
    requires 1 <= upTo <= |lines|
    ensures |UsableRows(headers, lines[1..upTo])| + |SkipWarnings(headers, lines, upTo)| == Count(lines[1..upTo], NonBlank())
    decreases upTo
  {
    if upTo > 1 {
      RowsAndSkipsPartition(headers, lines, upTo - 1);
      UsableRowsStep(headers, lines, upTo - 1);
      CountStep(lines[1..], upTo - 2, NonBlank());
      assert lines[1..][..upTo - 1] == lines[1..upTo];
      assert lines[1..][..upTo - 2] == lines[1..upTo - 1];
    }
  }

  /** Where no data line is short, the sheet keeps the same rows as the CSV upload does. */
  lemma {:induction false} NoShortLineKeepsAll(headers: seq<string>, ls: seq<string>)
    requires forall k :: 0 <= k < |ls| ==> !IsShort(headers, ls[k])
    ensures UsableRows(headers, ls) == KeptRows(headers, ls)
    decreases |ls|
  {
    if ls != [] {
      NoShortLineKeepsAll(headers, ls[..|ls| - 1]);
    }
  }

  /** The two loaders agree on a text without carriage returns, without the form's rent header
    * and without short data lines: same headers and same rows before the rent normalisation. */
  lemma LoadersAgree(text: string, fileName: string, now: int)
    requires '\r' !in text && !AllSpace(text)
    requires |SheetLines(text)| >= 2
    requires SheetRentHeader !in LineFields(SheetLines(text)[0])
    requires FirstShortLine(LineFields(SheetLines(text)[0]), SheetLines(text), 1).None?
    ensures var lines := SheetLines(text);
      var headers := RenamedHeaders(LineFields(lines[0]));
      ParsedText(text, fileName, now) == Success(Dataset(headers, UsableRows(headers, lines[1..]), fileName, now))
  {
    var lines := SheetLines(text);
    NormalizeWithoutCr(text);
    assert TextLines(text) == lines;
    var headers := LineFields(lines[0]);
    RenameOnlyRentHeader(headers);
    FirstShortLineSpec(headers, lines, 1);
    forall k | 0 <= k < |lines[1..]|
      ensures !IsShort(headers, lines[1..][k])
    {
      assert lines[1..][k] == lines[k + 1];
    }
    NoShortLineKeepsAll(headers, lines[1..]);
  }
}
