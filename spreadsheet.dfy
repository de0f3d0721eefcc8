/**
 * The loaded spreadsheet (`SpreadsheetData` / `CSVData`): a header list and rows that map a
 * column name to a string or a number, plus what the browser's `Date` and number conversions
 * supply to the utilities.
 */
module Spreadsheet {
  import opened Wrappers
  import opened JsText

  /** A field of `Record<string, string | number>`. */
  datatype Cell = Str(text: string) | Num(number: real)

  /** A row; a column absent from the map reads as `undefined`. */
  type Row = map<string, Cell>

  datatype Dataset = Dataset(headers: seq<string>, rows: seq<Row>, fileName: string, uploadedAt: int)

  /**
   * The engine's `Date` and number services, seen through an abstract millisecond timestamp.
   * - `parseDate(s)`: `new Date(s)`, `None` when `getTime()` is `NaN`;
   * - `hours`, `weekday`, `fullYear`, `month`: `getHours`, `getDay`, `getFullYear`, `getMonth`;
   * - `isoDay(t)`: `toISOString().split('T')[0]`;
   * - `endOfDay(t)`: the timestamp after `setHours(23, 59, 59, 999)`;
   * - `localeText(t)`: `toLocaleString('ja-JP')`;
   * - `localeDateText(t)`: `toLocaleDateString('ja-JP')`;
   * - `numberText(x)`: `String(x)`;
   * - `parseFloat(s)`: `parseFloat(s)`, `None` for `NaN`;
   * - `toNumber(s)`: `Number(s)`, `None` for `NaN` and for the infinities;
   * - `isFiniteNumber(s)`: `isFinite(Number(s))`.
   */
  datatype Host = Host(
    parseDate: string -> Option<int>,
    hours: int -> int,
    weekday: int -> int,
    fullYear: int -> int,
    month: int -> int,
    isoDay: int -> string,
    endOfDay: int -> int,
    localeText: int -> string,
    localeDateText: int -> string,
    numberText: real -> string,
    parseFloat: string -> Option<real>,
    toNumber: string -> Option<real>,
    isFiniteNumber: string -> bool)

  /** What every engine guarantees about those services. */
  ghost predicate ValidHost(h: Host) {
    (forall t :: 0 <= h.hours(t) < 24) &&
    (forall t :: 0 <= h.weekday(t) < 7) &&
    (forall t :: 0 <= h.month(t) < 12) &&
    (forall t :: h.endOfDay(t) >= t)
  }

  /** The ranges of `getHours`, `getDay` and `getMonth`. */
  lemma HostRanges(h: Host, t: int)
    requires ValidHost(h)
    ensures 0 <= h.hours(t) < 24 && 0 <= h.weekday(t) < 7 && 0 <= h.month(t) < 12
  {
  }

  /** JavaScript truthiness of `row[column]`: present, and neither `''` nor `0`. */
  predicate Truthy(row: Row, column: string) {
    column in row && match row[column]
      case Str(s) => s != ""
      case Num(x) => x != 0.0
  }

  /** `String(v)` for a present value. */
  function CellText(h: Host, c: Cell): string {
    match c
    case Str(s) => s
    case Num(x) => h.numberText(x)
  }

  /** `String(row[column])`, which is `"undefined"` for an absent column. */
  function RawText(h: Host, row: Row, column: string): string {
    if column in row then CellText(h, row[column]) else "undefined"
  }

  /** `String(row[column] || '')`: falsy values read as the empty string. */
  function TextOrEmpty(h: Host, row: Row, column: string): (r: string)
    ensures !Truthy(row, column) ==> r == ""
    ensures Truthy(row, column) ==> r == CellText(h, row[column])
  {
    if Truthy(row, column) then CellText(h, row[column]) else ""
  }

  /** `row[column]` when it is a non-empty string (`value && typeof value === 'string'`). */
  function StringValue(row: Row, column: string): (r: Option<string>)
    ensures r.Some? <==> column in row && row[column].Str? && row[column].text != ""
    ensures r.Some? ==> r.value == row[column].text
  {
    if column in row && row[column].Str? && row[column].text != "" then Some(row[column].text) else None
  }

  /** `value.split(' ')[0]`: the date part of a `"2024-11-02 07:17:22 pm"` timestamp. */
  function DatePart(s: string): (r: string)
    ensures ' ' !in r && StartsWith(s, r)
    ensures |r| < |s| ==> s[|r|] == ' '
  {
    BeforeFirst(s, ' ')
  }

  /** `new Date(String(row[column]))` for a truthy value, `None` when falsy or unparseable. */
  function RowDate(h: Host, row: Row, column: string): Option<int> {
    if Truthy(row, column) then h.parseDate(CellText(h, row[column])) else None
  }

  /** `${date.getFullYear()}-${String(date.getMonth() + 1).padStart(2, '0')}` */
  function LocalYearMonth(h: Host, t: int): string {
    var y := h.fullYear(t);
    var m := h.month(t);
    (if y < 0 then "-" + NatText(-y) else NatText(y)) + "-" + (if m + 1 >= 0 then Pad2(m + 1) else "-" + NatText(-(m + 1)))
  }

  /** The values of one column, `rows.map(row => row[column])`, with `None` for `undefined`. */
  function ColumnValues(rows: seq<Row>, column: string): (r: seq<Option<Cell>>)
    ensures |r| == |rows|
    ensures forall i :: 0 <= i < |rows| ==> r[i] == (if column in rows[i] then Some(rows[i][column]) else None)
  {
    seq(|rows|, i requires 0 <= i < |rows| => if column in rows[i] then Some(rows[i][column]) else None)
  }
}
