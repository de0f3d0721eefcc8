# csv-stats-viewer in Dafny

A model of the data core of csv-stats-viewer, a browser application for a rental agency. It
reads the agency's lead spreadsheet, either uploaded as a CSV file or exported from Google
Sheets. It then computes column statistics, filters rows by period, counts leads per
advertising channel, day, month and hour, and relates those counts to the advertising costs
kept in the browser's storage. It also reads free-text rent answers ("10万〜15万円",
"120,000円", "８万") as numbers and sorts them into rent bands.

What the model covers:

- **Data.** A spreadsheet row is a `map<string, Cell>` with `Cell = Str(string) | Num(real)`.
  A key missing from the map stands for JavaScript's `undefined`. Text is `seq<char>`.
  `JsText` models the JavaScript string functions the code relies on: `trim` with the
  JavaScript whitespace set, `split`, `includes`, `startsWith`, `indexOf` and `parseInt`.
- **Host functions.** `Date` parsing, `getHours`, `getDay`, `toISOString` and `parseFloat`
  depend on the host. They appear as total functions in a `Host` value passed as a parameter.
  The time `new Date()` reads is an `int` parameter.
- **Stateful code.**
  - The two storage modules are classes. The `entry` field is what `localStorage` holds
    under the module's key: nothing, a decoded JSON value, or unreadable text. The
    `quotaExceeded` field stands for a `setItem` that throws.
  - The save handler of the channel analysis screen is the class
    `MediaAnalyticsView.CostEditor`.
  - Loops in the source are `method`s with loop invariants, proved against specification
    functions. The properties are proved about those functions as lemmas.
- **Pure code.** Expression-level code, such as the channel name rules and the rent band
  table, is functions and lemmas.
- **Sheets parser.** The Google Sheets loader has its own `parseCSVLine`
  (`app/utils/sheetsLoader.ts:90-121`). It is character for character the CSV upload's loop,
  so both loaders use `CsvParser.ParseCsvLine`.
- **Rent map script.** `RentMapGenerator` models `convertToUpperLimit` and the entry list of
  `generate-rent-map.js`, the script that derives the conversion table's numbers.
- **Rent conversion table.** `RentTable` holds the 205 entries of `RENT_CONVERSION_MAP`
  (`app/utils/rentAnalytics.ts`). `RentTable.ParseRentValue` and `RentTable.AnalyzeRent` are
  the general `RentAnalytics` definitions applied to that table; everything proved about the
  general definitions holds for them. The table is written as seventeen runs of consecutive
  entries so that each entry can be checked on its own.
- **Band labels against the table.** `RentBandLookup` shows that none of the twenty labels
  of `RENT_RANGES` (`app/utils/rentNormalizer.ts:4-25`) is a key of the conversion table, so
  the rent analysis reads each label through its price-band formats. The keys are told apart
  from the labels by their length and their first, second and tenth characters.
- **Legacy parser.** `test-rent-parse.js` is an older stand-alone rent parser, modelled with
  its own sample answers.

Shared helpers live in `Wrappers` (Option, Result), `Seqs` (filter, map, count, distinct,
subsequence), `Sorting` (insertion sorts proved sorted and a permutation), `Tally`
(JavaScript `Map` counting) and `Spreadsheet` (cells, rows, datasets).

## Model

Functions that only name a step of the source, such as `StatsCalculator.Take`
(`slice(0, n)`), `DateFilter.Sample`, `DetailedAnalytics.PetTypes`, `Spreadsheet.TextOrEmpty`,
`Spreadsheet.StringValue`, `Spreadsheet.ColumnValues`, `RentAnalytics.ParseResponses`,
`RentAnalytics.Amounts` and `RentAnalytics.Details`, are the terms the contracts below are
written in. They have no row of their own.

| member | source | states |
|---|---|---|
| CsvParser.Advance | app/utils/csvParser.ts:154-158 | each turn of the field loop consumes one character, or two for a doubled quote inside quotes, so the loop ends |
| CsvParser.LineFields | app/utils/csvParser.ts:172-175 | every line, even an empty one, gives at least one field (the one pushed after the loop) |
| CsvParser.ParseCsvLine | app/utils/csvParser.ts:145-176 | the character loop returns exactly the fields of the line's specification `LineFields` |
| CsvParser.FieldsAreTrimmed | app/utils/csvParser.ts:165-173 | every field the parser returns has no surrounding whitespace |
| CsvParser.ScanKeepsTrimmed | app/utils/csvParser.ts:163-166 | the loop only ever closes trimmed fields, so an all-trimmed field list stays so |
| CsvParser.ScanComma | app/utils/csvParser.ts:163-166 | a comma outside quotes closes the open field, trimmed, and starts an empty one |
| CsvParser.ScanToggle | app/utils/csvParser.ts:159-162 | a quote that is not a doubled quote inside quotes only flips the quoting state and is dropped |
| CsvParser.ScanDoubledQuote | app/utils/csvParser.ts:155-158 | a doubled quote inside quotes adds one literal quote and skips both characters |
| CsvParser.ScanOther | app/utils/csvParser.ts:167-169 | any other character, and a comma inside quotes, is appended to the open field |
| CsvParser.ScanRun | app/utils/csvParser.ts:167-169 | a run without quotes (and without commas outside quotes) is appended whole to the open field |
| CsvParser.ScanUnquoted | app/utils/csvParser.ts:150-175 | on text without quotes the loop cuts at every comma |
| CsvParser.UnquotedLine | app/utils/csvParser.ts:145-176 | a line without quotes gives its comma-separated pieces trimmed, one more field than commas |
| CsvParser.QuotedBodyStep | app/utils/csvParser.ts:154-169 | inside quotes, the first character of an escaped field (or its doubled quote) yields that character |
| CsvParser.ScanQuotedBody | app/utils/csvParser.ts:154-169 | inside quotes the loop reads an escaped field back exactly and leaves quoting at the closing quote |
| CsvParser.ScanQuotedField | app/utils/csvParser.ts:154-162 | a quoted field followed by a comma or the end becomes the open field's text, quotes removed |
| CsvParser.ScanQuotedLine | app/utils/csvParser.ts:145-176 | a line of quoted fields is scanned into exactly those fields |
| CsvParser.QuotedLineRoundTrip | app/utils/csvParser.ts:145-176 | writing fields quoted with inner quotes doubled (section 2 of RFC 4180) and parsing the line gives the fields back, trimmed, commas inside quotes included |
| CsvParser.QuoteTogglesMidField | app/utils/csvParser.ts:159-162 | a quote in mid-field also toggles quoting, and quotes are dropped: `a"b,c"d` is the one field `ab,cd` |
| CsvParser.ValueAt | app/utils/csvParser.ts:98 | `values[index] \|\| ''` is the empty text past the end of the values |
| CsvParser.RowOfKeys | app/utils/csvParser.ts:96-101 | a row's keys are exactly the headers |
| CsvParser.RowOfLastWrite | app/utils/csvParser.ts:97-100 | with repeated headers, a header holds the value at its last position |
| CsvParser.RowIgnoresExtraValues | app/utils/csvParser.ts:90-101 | values beyond the headers do not reach the row |
| CsvParser.BuildRow | app/utils/csvParser.ts:96-101 | the row-building loop gives the row of the specification `RowOf` |
| CsvParser.ReplaceCr | app/utils/csvParser.ts:49 | no CR is left; a text without CR comes back unchanged; every other character keeps its place; an LF stands exactly where the input had a CR or an LF |
| CsvParser.NormalizeNewlines | app/utils/csvParser.ts:49 | after both rewrites no carriage return is left |
| CsvParser.ReplaceCrLfWithoutCr | app/utils/csvParser.ts:49 | the CR LF rewrite leaves text without CR unchanged |
| CsvParser.NormalizeWithoutCr | app/utils/csvParser.ts:49 | text without CR is left unchanged by the line-break normalisation |
| CsvParser.CrLfBecomesLf | app/utils/csvParser.ts:49 | a CR LF pair becomes one LF |
| CsvParser.LoneCrBecomesLf | app/utils/csvParser.ts:49 | a CR not followed by LF becomes one LF |
| CsvParser.TextLines | app/utils/csvParser.ts:50 | splitting the normalised, trimmed text gives at least one line |
| CsvParser.FirstShortLine | app/utils/csvParser.ts:75-89 | the first short data line found lies in the searched range |
| CsvParser.FirstShortLineSpec | app/utils/csvParser.ts:75-89 | the search returns a short line with no short line before it, or there is no short line at all |
| CsvParser.KeptRowsAreFilterMap | app/utils/csvParser.ts:75-103 | the rows are the non-blank data lines, each turned into its row, in order |
| CsvParser.KeptRowCount | app/utils/csvParser.ts:75-103 | one row per non-blank data line |
| CsvParser.ReadDataLine | app/utils/csvParser.ts:76-102 | a short line gives the error naming its line number and field counts, a blank line nothing, any other line its row, plus a warning when it has extra fields |
| CsvParser.ParseDataLines | app/utils/csvParser.ts:71-104 | the data-line loop equals the specification `DataRows`, and keeps the extra-field warnings only when it succeeds |
| CsvParser.ParseCsv | app/utils/csvParser.ts:40-120 | parsing decoded text gives the specification `ParsedText`: empty-file error, needs-data error, first short line error, or headers and rows |
| CsvParser.DataRowCount | app/utils/csvParser.ts:75-103 | an accepted file has one row per non-blank data line |
| CsvParser.DataRowFields | app/utils/csvParser.ts:96-101 | every row has exactly the header keys, and a unique header holds the field at its position or `''` |
| CsvParser.ShortLineFails | app/utils/csvParser.ts:82-89 | any short data line fails the whole parse, naming the first short line at or before it |
| CsvParser.LongLineTruncated | app/utils/csvParser.ts:90-101 | a line with too many fields is kept, its row built from the first fields only |
| SheetsLoader.SheetLines | app/utils/sheetsLoader.ts:24 | the sheet text, trimmed and cut at LF only, has at least one line |
| SheetsLoader.RenameOnlyRentHeader | app/utils/sheetsLoader.ts:38-43 | the rename keeps the header count and order, and changes a header exactly when it is the form's rent header, which becomes the rent-limit header |
| SheetsLoader.SheetRentHeaderIsRentColumn | app/utils/sheetsLoader.ts:39 | the form's rent header is a rent column for the normaliser |
| SheetsLoader.RentLimitHeaderIsRentColumn | app/utils/sheetsLoader.ts:40 | the renamed header is a rent column too |
| SheetsLoader.RenameKeepsRentColumns | app/utils/sheetsLoader.ts:38-69 | a header is a rent column after the rename exactly when it was one before |
| SheetsLoader.ReadSheetLine | app/utils/sheetsLoader.ts:49-65 | a usable line gives its row, a short line the skip warning with its line number, and a blank line nothing |
| SheetsLoader.SheetDataLines | app/utils/sheetsLoader.ts:48-66 | the loop gives the rows of the usable lines in order and one warning per short line |
| SheetsLoader.LoadSheetText | app/utils/sheetsLoader.ts:24-78 | fewer than two lines fail with the no-data message; otherwise the renamed headers, one normalised row per usable line, the sheet name and the load time |
| SheetsLoader.UsableRowsAreFilterMap | app/utils/sheetsLoader.ts:48-66 | the rows are the usable lines, each turned into its row, in order |
| SheetsLoader.RowsAndSkipsPartition | app/utils/sheetsLoader.ts:48-66 | every non-blank data line gives exactly one of a row or a warning |
| SheetsLoader.NoShortLineKeepsAll | app/utils/sheetsLoader.ts:48-66 | without short lines the sheet loader keeps the same rows as the CSV upload |
| SheetsLoader.LoadersAgree | app/utils/sheetsLoader.ts:24-66 | on text without CR, rent header or short lines, both loaders give the same headers and rows before normalisation |
| MediaAnalyticsView.OtherCostsAreOutsideSlice | app/components/MediaAnalyticsView.tsx:66-68 | the kept records are, in their original order, exactly the stored ones outside the selected month and channel |
| MediaAnalyticsView.ShownAndKeptPartition | app/components/MediaAnalyticsView.tsx:50-68 | with a month selected, the records shown and the records kept make up the stored list, as a multiset |
| MediaAnalyticsView.SaveWithoutMonthDropsChannel | app/components/MediaAnalyticsView.tsx:50-68 | without a month the screen shows nothing, yet a save drops every record of the selected channel |
| MediaAnalyticsView.CostEditor.constructor | app/components/MediaAnalyticsView.tsx:26-34 | the screen starts with the stored records, no month and Instagram selected |
| MediaAnalyticsView.CostEditor.HandleSave | app/components/MediaAnalyticsView.tsx:64-76 | the state becomes the records outside the slice followed by the new ones, the selection is unchanged, and the store holds the new list unless the quota is exceeded |
| MediaAnalyticsView.SaveThenShow | app/components/MediaAnalyticsView.tsx:50-73 | after saving records of the selected slice, the screen shows exactly them, and the list length changes by their number minus the replaced ones |
| StatsCalculator.NonBlank | app/utils/statsCalculator.ts:10-11 | the non-null values are the cells that are neither missing nor `''`, and they and the blanks account for every row |
| StatsCalculator.Texts | app/utils/statsCalculator.ts:17 | one text per value |
| StatsCalculator.DetectDataType | app/utils/statsCalculator.ts:132-184 | the counting loop gives the type of the specification `DataTypeOf` |
| StatsCalculator.KindsPartition | app/utils/statsCalculator.ts:139-155 | every value is counted as exactly one of number, date and text |
| StatsCalculator.KindOf | app/utils/statsCalculator.ts:139-155 | a numeric cell is always a number; only a text of at least 8 characters that the host reads as a date is a date |
| StatsCalculator.DataTypeSpec | app/utils/statsCalculator.ts:168-183 | `DataTypeOf`: date when at least 80% are dates, else number when at least 80% are numbers, else mixed when some but not all are text, else string (both directions each) |
| StatsCalculator.DatesAndNumbersWithoutTextIsString | app/utils/statsCalculator.ts:168-183 | a column half dates and half numbers, with no text, is typed string |
| StatsCalculator.NumbersOnlyIsNumber | app/utils/statsCalculator.ts:139-175 | a non-empty column of numeric cells is typed number |
| StatsCalculator.DateTimeExample | app/utils/statsCalculator.ts:193 | `2024/11/02 19:17:22` matches the date-time pattern |
| StatsCalculator.DateExample | app/utils/statsCalculator.ts:192 | `2024/11/02` matches the date pattern |
| StatsCalculator.DayFirstExample | app/utils/statsCalculator.ts:194 | `02-11-2024` matches the day-first pattern |
| StatsCalculator.QuotedExample | app/utils/statsCalculator.ts:198 | a date still wrapped in quotes matches no pattern |
| StatsCalculator.ShortTextIsNoDate | app/utils/statsCalculator.ts:188 | `IsDateString`: text shorter than 8 characters is never a date |
| StatsCalculator.DayFirstDateString | app/utils/statsCalculator.ts:186-202 | `IsDateString`: `02-11-2024` is a date whenever the host reads it as a valid `Date` |
| StatsCalculator.NumericValues | app/utils/statsCalculator.ts:30-32 | the numbers read from the values are at most as many as the values |
| StatsCalculator.MedianSplitsInHalf | app/utils/statsCalculator.ts:206-214 | the median is at least every value of the lower half and at most every value of the upper half |
| StatsCalculator.NumericStatsSpec | app/utils/statsCalculator.ts:34-47 | stats exist exactly for a non-empty list; min and max are values bounding all, sum is the sum, mean is sum over count, and mean and median lie between min and max |
| StatsCalculator.CalculateFrequencies | app/utils/statsCalculator.ts:216-226 | the counting loop gives the specification `FrequenciesOf` |
| StatsCalculator.FrequenciesAreCounts | app/utils/statsCalculator.ts:216-226 | the frequencies are the value counts sorted by count |
| StatsCalculator.FrequenciesSpec | app/utils/statsCalculator.ts:216-226 | one record per distinct value with its number of occurrences, every value present, in descending count order |
| StatsCalculator.TopValuesAreMostFrequent | app/utils/statsCalculator.ts:53-54 | a value missing from the top ten occurs no more often than the tenth |
| StatsCalculator.RoundClose | app/utils/statsCalculator.ts:65 | rounding moves a number by at most one half |
| StatsCalculator.LengthStatsSpec | app/utils/statsCalculator.ts:56-65 | length stats exist exactly for non-empty texts; min and max are lengths of some text and bound all, and the average is the mean length rounded to one decimal |
| StatsCalculator.Timestamps | app/utils/statsCalculator.ts:71-76 | the valid dates read from the values are at most as many as the values |
| StatsCalculator.HourDistributionOf | app/utils/statsCalculator.ts:228-245 | one entry per hour of the day |
| StatsCalculator.DayDistributionOf | app/utils/statsCalculator.ts:247-271 | one entry per day of the week |
| StatsCalculator.CalculateHourDistribution | app/utils/statsCalculator.ts:228-245 | the hour-counting loop gives the specification `HourDistributionOf` |
| StatsCalculator.CalculateDayOfWeekDistribution | app/utils/statsCalculator.ts:247-271 | the weekday-counting loop gives the specification `DayDistributionOf` |
| StatsCalculator.HourDistributionSpec | app/utils/statsCalculator.ts:228-245 | entry k counts the dates whose hour is k, and the counts add up to the number of dates |
| StatsCalculator.DayDistributionSpec | app/utils/statsCalculator.ts:247-271 | entry k is weekday k with its Japanese name and the number of dates on it, and the counts add up to the number of dates |
| StatsCalculator.DateRangeSpec | app/utils/statsCalculator.ts:86-90 | date stats exist exactly when there are dates, and the range runs from the earliest to the latest |
| StatsCalculator.CalculateColumnStats | app/utils/statsCalculator.ts:4-101 | the method gives the specification `ColumnStatsOf` |
| StatsCalculator.ColumnStatsSpec | app/utils/statsCalculator.ts:4-101 | `ColumnStatsOf`: total = null + non-null, unique at most non-null, the type is that of the non-null values, and each kind of stats is present exactly for its type |
| StatsCalculator.NullCountSpec | app/utils/statsCalculator.ts:10 | the null count is the number of rows where the column is missing or `''` |
| StatsCalculator.SliceEnd | app/utils/statsCalculator.ts:127 | the end `slice(0, limit)` uses never passes the length |
| StatsCalculator.GetValueFrequencies | app/utils/statsCalculator.ts:103-130 | the method gives the specification `ValueFrequenciesOf` |
| StatsCalculator.ValueFrequenciesAreCounts | app/utils/statsCalculator.ts:113-127 | the result is the value counts with percentages, sorted by count and cut at the limit |
| StatsCalculator.PercentageClose | app/utils/statsCalculator.ts:124 | each percentage is the share of the total times 100, rounded to two decimals |
| StatsCalculator.ValueFrequenciesSpec | app/utils/statsCalculator.ts:103-130 | distinct values, each with its count, in descending count order, as many as the limit allows |
| DateFilter.FirstHeader | app/utils/dateFilter.ts:8-13 | `find` gives nothing exactly when no header passes, and otherwise the first header that passes |
| DateFilter.DetectByName | app/utils/dateFilter.ts:7-13 | the first header whose name says date or time is the date column |
| DateFilter.DetectByValues | app/utils/dateFilter.ts:15-28 | without such a name, the first header whose sampled values look like dates is the date column |
| DateFilter.DetectNone | app/utils/dateFilter.ts:7-31 | no column is found exactly when no header has a date name or date-like values |
| DateFilter.DetectWithoutRows | app/utils/dateFilter.ts:16-27 | without rows only a date name can find a column |
| DateFilter.DetectDateColumn | app/utils/dateFilter.ts:7-31 | a detected column is one of the headers |
| DateFilter.FilterDataByPeriodSpec | app/utils/dateFilter.ts:36-75 | the filter keeps headers and file data, keeps rows in order, leaves the data unchanged for all periods, and otherwise keeps exactly the rows its period admits |
| DateFilter.FilterDataByPeriod | app/utils/dateFilter.ts:36-75 | the headers, file name and upload time are kept, and the result never has more rows than the data |
| DateFilter.DropsRowsWithoutDate | app/utils/dateFilter.ts:46-50 | a row without a valid date is dropped by every period but all |
| DateFilter.MonthModeKeeps | app/utils/dateFilter.ts:52-55 | month mode keeps a dated row exactly when its local year-month is the selected one, and every dated row when no month is selected |
| DateFilter.CustomWindowBounds | app/utils/dateFilter.ts:57-66 | a custom window keeps dates inside its bounds and drops those before the start or after the end of the end day |
| DateFilter.UnboundedWindowKeepsDated | app/utils/dateFilter.ts:57-66 | a custom window without bounds keeps exactly the dated rows |
| DateFilter.WiderWindowKeepsMore | app/utils/dateFilter.ts:57-69 | widening a custom window never keeps fewer rows |
| DateFilter.DatesMembers | app/utils/dateFilter.ts:100-111 | the collected dates are exactly the valid dates of the rows |
| DateFilter.DatesCount | app/utils/dateFilter.ts:103-111 | one date per dated row |
| DateFilter.GetAvailableMonths | app/utils/dateFilter.ts:80-95 | the loop gives the specification `AvailableMonthsOf` |
| DateFilter.AvailableMonthsSpec | app/utils/dateFilter.ts:80-95 | `AvailableMonthsOf`: the months offered are exactly the year-months of the dated rows, each once, newest first |
| DateFilter.NewestFirstMembers | app/utils/dateFilter.ts:94 | sorting then reversing keeps exactly the same months |
| DateFilter.NewestFirstDescending | app/utils/dateFilter.ts:94 | of distinct months, sorting then reversing gives strictly descending order |
| DateFilter.OfferedMonthSelectsRows | app/utils/dateFilter.ts:36-95 | filtering by any offered month keeps at least one row |
| DateFilter.MonthRowSelected | app/utils/dateFilter.ts:45-55 | a row dated in a month makes that month's filter non-empty |
| DateFilter.GetDateRange | app/utils/dateFilter.ts:100-120 | the method gives the specification `DateRangeOf` |
| DateFilter.DateRangeSpec | app/utils/dateFilter.ts:100-120 | no range exactly when no row has a valid date; otherwise the earliest and latest dates |
| AdPerformance.CountResponsesInPeriod | app/utils/adPerformance.ts:7-29 | the count is the number of rows dated inside the period |
| AdPerformance.WiderWindowCountsMore | app/utils/adPerformance.ts:23 | a wider period never counts fewer responses |
| AdPerformance.DayKeysCount | app/utils/adPerformance.ts:42-54 | one day key per response inside the period |
| AdPerformance.GetResponseCountsByDate | app/utils/adPerformance.ts:34-60 | the method gives the specification `ResponseCountsOf` |
| AdPerformance.ResponseCountsSpec | app/utils/adPerformance.ts:34-60 | one entry per day with responses, each with its count, in ascending day order, adding up to the responses in the period |
| AdPerformance.AscendingDays | app/utils/adPerformance.ts:57-59 | the day entries sorted by date have strictly ascending days |
| AdPerformance.CalculateAdPerformance | app/utils/adPerformance.ts:65-101 | the method gives the specification `AdPerformanceOf` |
| AdPerformance.PerformanceOfSpec | app/utils/adPerformance.ts:65-101 | `PerformanceOf`: the cost is the campaign's, the responses those up to the end of the last day, the cost per response is cost over responses (0 with none), and the daily counts add up to the responses |
| AdPerformance.AdPerformanceSpec | app/utils/adPerformance.ts:65-101 | a campaign counts at least the responses between its start and end instants |
| AdPerformance.AllDates | app/utils/adPerformance.ts:114 | the dates are each campaign's start and end, in order |
| AdPerformance.CalculateTotalAdPerformance | app/utils/adPerformance.ts:106-149 | the method gives the specification `TotalAdPerformanceOf` |
| AdPerformance.TotalAdPerformanceSpec | app/utils/adPerformance.ts:106-149 | `TotalAdPerformanceOf`: nothing without campaigns; otherwise the summed cost, cost per response, and at least the responses of every single campaign |
| AdPerformance.CampaignInsideTotal | app/utils/adPerformance.ts:113-120 | each campaign's period lies inside the overall period, so counts no more responses |
| ResponseAnalytics.MonthKey | app/utils/responseAnalytics.ts:19-23 | a month key has seven characters and starts the row's date part |
| ResponseAnalytics.MonthKeysMembers | app/utils/responseAnalytics.ts:18-26 | the month keys are exactly those of the rows that have one |
| ResponseAnalytics.MonthKeysCount | app/utils/responseAnalytics.ts:18-26 | one key per row with a month |
| ResponseAnalytics.OccurrenceMap | app/utils/responseAnalytics.ts:16-26 | the count map has exactly the keys seen, each with its number of occurrences |
| ResponseAnalytics.SortedMonths | app/utils/responseAnalytics.ts:29 | every sorted month is a month key of the rows |
| ResponseAnalytics.CalculateMonthlyResponseCounts | app/utils/responseAnalytics.ts:11-57 | the method gives the specification `MonthlyCountsOf` |
| ResponseAnalytics.MonthlyCountsMonths | app/utils/responseAnalytics.ts:11-57 | the entries are the rows' months, each once, strictly ascending, each with its positive count |
| ResponseAnalytics.EntriesChanges | app/utils/responseAnalytics.ts:32-54 | the first month has no change, and each later one the difference and percentage against the month before |
| ResponseAnalytics.MonthlyCountsChanges | app/utils/responseAnalytics.ts:35-46 | the same change relation holds for the monthly counts of any rows |
| ResponseAnalytics.MonthlyCountsTotal | app/utils/responseAnalytics.ts:16-26 | the monthly counts add up to the number of rows with a month |
| ResponseAnalytics.PeakIndex | app/utils/responseAnalytics.ts:81-84 | the peak index has the largest count, the first such |
| ResponseAnalytics.LowestIndex | app/utils/responseAnalytics.ts:85-87 | the lowest index has the smallest count, the first such |
| ResponseAnalytics.FindPeakAndLowest | app/utils/responseAnalytics.ts:78-88 | the loop gives the peak and lowest of the specification |
| ResponseAnalytics.GenerateResponseAnalysisSummary | app/utils/responseAnalytics.ts:66-105 | the method gives the specification `SummaryOf` |
| ResponseAnalytics.PeakAndLowestSpec | app/utils/responseAnalytics.ts:78-88 | none exactly for no months; otherwise the first month with the largest count and the first with the smallest |
| ResponseAnalytics.PeriodBounds | app/utils/responseAnalytics.ts:90-95 | in ascending months the first and last bound every month |
| ResponseAnalytics.SummarySpec | app/utils/responseAnalytics.ts:66-105 | `SummaryOf`: total is every row, average is rows over months, peak and lowest as specified, and the period spans all months (empty without months) |
| DetailedAnalytics.TargetRows | app/utils/detailedAnalytics.ts:23-40 | the target rows keep the order of the data and are as many as the rows that match |
| DetailedAnalytics.TargetRowsMembers | app/utils/detailedAnalytics.ts:23-40 | a row is a target exactly when it is in the data and matches channel and month |
| DetailedAnalytics.MonthTargetsAreMonthLeads | app/utils/detailedAnalytics.ts:23-40 | for a month, the targets are the channel's leads of that month as the monthly report counts them |
| DetailedAnalytics.AllTimeTargetsAmongChannelLeads | app/utils/detailedAnalytics.ts:27-33 | for all time, the targets are at most the channel's leads |
| DetailedAnalytics.TwelveHourClock | app/utils/detailedAnalytics.ts:108-112 | `To24Hour`: 12 am is hour 0, 12 pm hour 12, other pm hours add 12, and a time without am/pm is kept |
| DetailedAnalytics.HourOf | app/utils/detailedAnalytics.ts:96-116 | an hour read from a timestamp lies in 0..23, and a row without a date text has none |
| DetailedAnalytics.HourOfTimestamp | app/utils/detailedAnalytics.ts:99-116 | for `date hh:rest period`, the hour is hh turned to the 24-hour clock when it lies in 0..23 |
| DetailedAnalytics.EveningSample | app/utils/detailedAnalytics.ts:99-116 | `2024-11-02 07:17:22 pm` is hour 19 |
| DetailedAnalytics.MidnightSample | app/utils/detailedAnalytics.ts:108-112 | `2024-11-02 12:05:00 am` is hour 0 |
| DetailedAnalytics.HourlyDistributionOf | app/utils/detailedAnalytics.ts:84-123 | one entry for each hour 0..23, in order |
| DetailedAnalytics.CalculateHourlyDistribution | app/utils/detailedAnalytics.ts:84-123 | the loop gives the specification `HourlyDistributionOf` |
| DetailedAnalytics.HourlyTotal | app/utils/detailedAnalytics.ts:95-117 | the hourly counts add up to the rows with a readable hour |
| DetailedAnalytics.FindPeakHour | app/utils/detailedAnalytics.ts:128-140 | the loop returns the peak hour: the first entry with the largest count |
| DetailedAnalytics.PeakHourUnique | app/utils/detailedAnalytics.ts:128-140 | there is only one peak hour |
| DetailedAnalytics.PeakHourOfDay | app/utils/detailedAnalytics.ts:128-140 | over the 24 hours the peak is an hour with the largest count and no earlier hour ties it |
| DetailedAnalytics.PetTypeOf | app/utils/detailedAnalytics.ts:153 | an empty answer is the unknown type, and any other is trimmed |
| DetailedAnalytics.CalculatePetTypeDistribution | app/utils/detailedAnalytics.ts:145-167 | the counting loop, the entries of the count object in the order `Object.entries` lists them, and the sort give the specification `PetTypeDistributionOf` |
| DetailedAnalytics.PetTypeDistributionSpec | app/utils/detailedAnalytics.ts:145-167 | `PetTypeDistributionOf`: distinct pet types in descending count order, each with its count and share, every row's type present, counts adding up to the rows |
| DetailedAnalytics.PetTypeTiesInKeyOrder | app/utils/detailedAnalytics.ts:159-166 | pet types with equal counts keep the order in which `Object.entries` lists the keys of the count object |
| DetailedAnalytics.SharesOfSortedEntries | app/utils/detailedAnalytics.ts:159-166 | when the counted entries already run from the largest count down, the result is those entries with their shares, in that order |
| DetailedAnalytics.KeyOrderPair | app/utils/detailedAnalytics.ts:149-166 | two different answers, one response each, whose keys the object lists second answer first: both are counted once and come out in the object's order |
| DetailedAnalytics.IndexAnswersAscending | app/utils/detailedAnalytics.ts:149-166 | responses answering "2" and then "1" come out as "1" and then "2", each counted once: integer-like answers are listed in ascending numeric order, not in the order first seen |
| Tally.ObjectKeyOrderSpec | app/utils/detailedAnalytics.ts:159 | `Object.entries` lists the same keys; an array-index key is preceded only by array-index keys of no larger value; the other keys keep their creation order |
| Tally.ObjectKeyOrderPair | app/utils/detailedAnalytics.ts:159 | two array-index keys created larger value first are listed smaller value first |
| Tally.ObjectKeyOrderExample | app/utils/detailedAnalytics.ts:159 | keys "2", "犬", "1" created in that order are listed "1", "2", "犬" |
| Tally.SortedEntriesSpec | app/utils/detailedAnalytics.ts:159-166 | whatever order the distinct values are listed in, the count-sorted entries hold each value once with its occurrences, miss none and add up to the length |
| Sorting.InsertionSortStable | app/utils/detailedAnalytics.ts:166 | the sort is stable: two results that tie under the comparator stand in their input order |
| DetailedAnalytics.CategoryOfAnswer | app/utils/detailedAnalytics.ts:182-201 | `CategoryOf`: dog and cat when the answer mentions both, dog or cat when only one, unknown when neither |
| DetailedAnalytics.CalculatePetCategory | app/utils/detailedAnalytics.ts:172-205 | each count is the number of rows of its category |
| DetailedAnalytics.CategoriesAddUp | app/utils/detailedAnalytics.ts:181-202 | the four categories add up to the rows |
| DetailedAnalytics.CalculateMediaDetailedAnalysis | app/utils/detailedAnalytics.ts:14-79 | the result is the analysis of the target rows: lead count, hourly distribution, peak hour, pet types and categories |
| DetailedAnalytics.DetailedAnalysisTotals | app/utils/detailedAnalytics.ts:14-79 | the pet types and categories add up to the leads, the hours to at most the leads, and the peak hour is the busiest |
| MediaAdStorage.Decode | app/utils/mediaAdStorage.ts:8-21 | no entry or an entry that is not an array loads as the empty list; an array loads as its records |
| MediaAdStorage.CostsOfMonth | app/utils/mediaAdStorage.ts:48-51 | exactly the records whose date starts with the year-month |
| MediaAdStorage.CostsOfType | app/utils/mediaAdStorage.ts:56-59 | exactly the records of the channel |
| MediaAdStorage.CostsOfMonthAndType | app/utils/mediaAdStorage.ts:64-72 | exactly the records of both the month and the channel |
| MediaAdStorage.MonthAndTypeIsBoth | app/utils/mediaAdStorage.ts:48-72 | selecting by month and channel together is selecting by month, then by channel |
| MediaAdStorage.MediaAdStore.constructor | app/utils/mediaAdStorage.ts:8-21 | the store starts from the given stored value and quota state |
| MediaAdStorage.MediaAdStore.Load | app/utils/mediaAdStorage.ts:8-21 | loading gives the decoded records of the entry |
| MediaAdStorage.MediaAdStore.Save | app/utils/mediaAdStorage.ts:26-34 | unless the quota is exceeded the entry becomes the list, so a load gives it back; otherwise nothing changes |
| MediaAdStorage.MediaAdStore.Remove | app/utils/mediaAdStorage.ts:39-43 | unless the quota is exceeded, a load afterwards gives the former records without the id; otherwise nothing changes |
| MediaAdStorage.MediaAdStore.ByMonth | app/utils/mediaAdStorage.ts:48-51 | the loaded records of the month |
| MediaAdStorage.MediaAdStore.ByType | app/utils/mediaAdStorage.ts:56-59 | the loaded records of the channel |
| MediaAdStorage.MediaAdStore.ByMonthAndType | app/utils/mediaAdStorage.ts:64-72 | the loaded records of the month and channel |
| MediaAdStorage.RemoveKeepsOthers | app/utils/mediaAdStorage.ts:39-43 | removal keeps exactly the records with another id |
| AdCostStorage.Envelop | app/utils/adCostStorage.ts:17-25 | the saved value carries version 1.0 and one stored record per campaign |
| AdCostStorage.UnwrapEmpty | app/utils/adCostStorage.ts:37-60 | no entry, another version or unreadable text all load as the empty list, and only a current-version envelope loads anything |
| AdCostStorage.LoadAfterSave | app/utils/adCostStorage.ts:15-60 | when the date text round-trips, loading what was saved gives the campaigns back |
| AdCostStorage.RemoveKeepsOthers | app/utils/adCostStorage.ts:74-78 | removal keeps, in order, exactly the campaigns with another id |
| AdCostStorage.AdCostStore.constructor | app/utils/adCostStorage.ts:37-60 | the store starts from the given stored value, quota state and date codec |
| AdCostStorage.AdCostStore.Load | app/utils/adCostStorage.ts:37-60 | loading gives the unwrapped campaigns of the entry |
| AdCostStorage.AdCostStore.Save | app/utils/adCostStorage.ts:15-32 | success exactly when the quota is not exceeded; then the entry is the envelope and loads back the list, otherwise nothing changes |
| AdCostStorage.AdCostStore.Add | app/utils/adCostStorage.ts:65-69 | on success the stored list is the former one with the campaign appended |
| AdCostStorage.AdCostStore.Remove | app/utils/adCostStorage.ts:74-78 | on success the stored list is the former one without the id |
| AdCostStorage.AdCostStore.Clear | app/utils/adCostStorage.ts:83-91 | clearing always succeeds and leaves no entry, so nothing loads |
| Tally.CountByKey | app/utils/statsCalculator.ts:216-221 | the counting loop gives each distinct value once, in first-seen order, with its number of occurrences |
| Tally.CountsByValueSpec | app/utils/statsCalculator.ts:216-226 | the sorted counts hold each value once with its occurrences, miss none, and add up to the length |
| Tally.SlotCounts | app/utils/statsCalculator.ts:228-240 | one count per slot, each the number of items in that slot |
| Tally.CountIntoSlots | app/utils/statsCalculator.ts:228-240 | the slot-counting loop gives the specification `SlotCounts` |
| Tally.SlotCountsTotal | app/utils/statsCalculator.ts:237-240 | the slot counts add up to the number of items |
| MediaTypes.MediaTypeNamesDistinct | app/types/media.types.ts:2-13 | the channel names are pairwise distinct |
| Spreadsheet.DatePart | app/utils/mediaAnalytics.ts:42 | the date part is a space-free prefix that ends at the first space, or at the end of a text without one |
| JsText.TrimSpec | app/utils/csvParser.ts:76 | `trim` removes exactly the leading and trailing whitespace and leaves a middle part without whitespace at either end |
| Sorting.SortIntsEnds | app/utils/rentAnalytics.ts:391-394 | after the numeric sort the first value is the minimum and the last the maximum |
| Sorting.SortStringsEnds | app/utils/rentOverview.ts:44 | after the default sort every value lies between the first and the last |
| RentAnalytics.TableLookup | app/utils/rentAnalytics.ts:255-256 | nothing exactly when no table key equals the text; otherwise the band stored under it |
| RentAnalytics.DetectRentColumn | app/utils/rentAnalytics.ts:227-232 | nothing exactly when no header names the rent answers; otherwise the first header that does |
| RentAnalytics.GroupedTextRoundTrip | app/utils/rentAnalytics.ts:268-270 | a number written with thousands commas matches the grouped-digits pattern and reads back as the number |
| RentAnalytics.UpToPatternIsRegex | app/utils/rentAnalytics.ts:268 | the up-to reader matches exactly `~` + grouped digits + `円`, giving the digits |
| RentAnalytics.RangePatternSound | app/utils/rentAnalytics.ts:277 | what the range reader returns is the upper part of a `lower~upper円` match |
| RentAnalytics.RangePatternComplete | app/utils/rentAnalytics.ts:277 | every `lower~upper円` text with grouped parts is read, giving the upper part |
| RentAnalytics.RangePatternIsRegex | app/utils/rentAnalytics.ts:277 | the range reader gives an upper part exactly for a range match of it |
| RentAnalytics.ParseBandFormats | app/utils/rentAnalytics.ts:264-293 | reading by format keeps the original text, is valid exactly when it has a value, and a value is positive |
| RentAnalytics.ParseRentValueWith | app/utils/rentAnalytics.ts:246-294 | the parse keeps the original text, is valid exactly when it has a value, and every value is positive |
| RentAnalytics.BlankIsInvalid | app/utils/rentAnalytics.ts:250-252 | a blank answer is invalid |
| RentAnalytics.TableAnswer | app/utils/rentAnalytics.ts:255-262 | a table answer gives its band, a band of 0 being invalid, and table values lie between 60,000 and 500,000 |
| RentAnalytics.TrimmedAnswerReadsAlike | app/utils/rentAnalytics.ts:247-248 | surrounding whitespace does not change the value or validity |
| RentAnalytics.ReadByFormats | app/utils/rentAnalytics.ts:264-293 | a trimmed answer that is no table key is read by its format |
| RentAnalytics.RangeFormatReads | app/utils/rentAnalytics.ts:276-283 | a range answer reads as its positive upper amount |
| RentAnalytics.UpToFormatRoundTrip | app/utils/rentAnalytics.ts:267-274 | `~N円`, with N written with commas, reads back as N |
| RentAnalytics.RangeAnswer | app/utils/rentAnalytics.ts:276-283 | `lower~upper円` reads as the upper amount |
| RentAnalytics.RangeFormatRoundTrip | app/utils/rentAnalytics.ts:276-283 | `L~N円`, both written with commas, reads back as N |
| RentAnalytics.FromFormatIsTop | app/utils/rentAnalytics.ts:285-290 | `N円~` reads as the top value 500,000 whatever N is |
| RentAnalytics.UnknownAnswerIsInvalid | app/utils/rentAnalytics.ts:292-293 | an answer in no table and no format is invalid |
| RentAnalytics.ParseRentValueAsWritten | app/utils/rentAnalytics.ts:255-262 | the as-written parse, with its `in` lookup, keeps the original text |
| RentAnalytics.InheritedNamesAreNoBands | app/utils/rentAnalytics.ts:264-293 | no inherited object member name matches any band format |
| RentAnalytics.InheritedNameAcceptedAsWritten | app/utils/rentAnalytics.ts:255-261 | an inherited member name such as `toString` is valid as written, with the member as its value, while the own-key reading rejects it |
| RentAnalytics.AsWrittenAgreesElsewhere | app/utils/rentAnalytics.ts:255-262 | on every other answer the as-written parse and the own-key parse agree |
| RentAnalytics.UsableResponses | app/utils/rentAnalytics.ts:364 | exactly as many as the valid responses, each valid and taken from the input |
| RentAnalytics.SelectedResponses | app/utils/rentAnalytics.ts:321-348 | one response per row of the channel and month, each consistently read |
| RentAnalytics.AnalyzeRentNeedsRentColumn | app/utils/rentAnalytics.ts:315-318 | the analysis is absent exactly when no header names the rent answers |
| RentTable.ParseRentValue | app/utils/rentAnalytics.ts:246-294 | with the 205-entry table: the result keeps the answer as `original`, is valid exactly when it has a value, and that value is positive |
| RentTable.AnalyzeRent | app/utils/rentAnalytics.ts:306-318 | with the 205-entry table: no analysis exactly when no header names the rent answers |
| RentBandLookup.BandPrint0 | app/utils/rentNormalizer.ts:5 | the label computed from band 1's bounds is `~50,000円`, the label written in the source |
| RentBandLookup.BandPrint1 | app/utils/rentNormalizer.ts:6 | the label computed from band 2's bounds is `51,000~75,000円`, the label written in the source |
| RentBandLookup.BandPrint2 | app/utils/rentNormalizer.ts:7 | the label computed from band 3's bounds is `76,000~100,000円`, the label written in the source |
| RentBandLookup.BandPrint3 | app/utils/rentNormalizer.ts:8 | the label computed from band 4's bounds is `101,000~125,000円`, the label written in the source |
| RentBandLookup.BandPrint4 | app/utils/rentNormalizer.ts:9 | the label computed from band 5's bounds is `126,000~150,000円`, the label written in the source |
| RentBandLookup.BandPrint5 | app/utils/rentNormalizer.ts:10 | the label computed from band 6's bounds is `151,000~170,000円`, the label written in the source |
| RentBandLookup.BandPrint6 | app/utils/rentNormalizer.ts:11 | the label computed from band 7's bounds is `171,000~200,000円`, the label written in the source |
| RentBandLookup.BandPrint7 | app/utils/rentNormalizer.ts:12 | the label computed from band 8's bounds is `201,000~225,000円`, the label written in the source |
| RentBandLookup.BandPrint8 | app/utils/rentNormalizer.ts:13 | the label computed from band 9's bounds is `226,000~250,000円`, the label written in the source |
| RentBandLookup.BandPrint9 | app/utils/rentNormalizer.ts:14 | the label computed from band 10's bounds is `251,000~275,000円`, the label written in the source |
| RentBandLookup.BandPrint10 | app/utils/rentNormalizer.ts:15 | the label computed from band 11's bounds is `276,000~300,000円`, the label written in the source |
| RentBandLookup.BandPrint11 | app/utils/rentNormalizer.ts:16 | the label computed from band 12's bounds is `301,000~325,000円`, the label written in the source |
| RentBandLookup.BandPrint12 | app/utils/rentNormalizer.ts:17 | the label computed from band 13's bounds is `326,000~350,000円`, the label written in the source |
| RentBandLookup.BandPrint13 | app/utils/rentNormalizer.ts:18 | the label computed from band 14's bounds is `351,000~375,000円`, the label written in the source |
| RentBandLookup.BandPrint14 | app/utils/rentNormalizer.ts:19 | the label computed from band 15's bounds is `376,000~400,000円`, the label written in the source |
| RentBandLookup.BandPrint15 | app/utils/rentNormalizer.ts:20 | the label computed from band 16's bounds is `401,000~425,000円`, the label written in the source |
| RentBandLookup.BandPrint16 | app/utils/rentNormalizer.ts:21 | the label computed from band 17's bounds is `426,000~450,000円`, the label written in the source |
| RentBandLookup.BandPrint17 | app/utils/rentNormalizer.ts:22 | the label computed from band 18's bounds is `451,000~475,000円`, the label written in the source |
| RentBandLookup.BandPrint18 | app/utils/rentNormalizer.ts:23 | the label computed from band 19's bounds is `476,000~500,000円`, the label written in the source |
| RentBandLookup.BandPrint19 | app/utils/rentNormalizer.ts:24 | the label computed from band 20's bounds is `510,000円~`, the label written in the source |
| RentBandLookup.ClosedLabel | app/utils/rentNormalizer.ts:6-23 | a closed band of whole thousands is labelled with its two bounds, each followed by `,000` |
| RentBandLookup.BandPrints | app/utils/rentNormalizer.ts:4-25 | each band label has the print listed for it |
| RentBandLookup.NoLabelKeyAppend | app/utils/rentAnalytics.ts:10-221 | two runs of entries without a label-like key join into one |
| RentBandLookup.TableHasNoLabel | app/utils/rentAnalytics.ts:10-221 | no key of the 205-entry table has the print of a band label |
| RentBandLookup.BandLabelIsNoKey | app/utils/rentAnalytics.ts:10-221 | no band label is a key of the conversion table |
| RentBandLookup.BandLabelReadsAsMaximum | app/utils/rentAnalytics.ts:246-294 | `parseRentValue` reads every band label as the band's maximum, and the open band's label as 500,000 |
| RentBandLookup.ThirdBandLabelReadsAsMaximum | app/utils/rentAnalytics.ts:276-283 | `76,000~100,000円` reads as 100,000 |
| RentBandLookup.OpenBandLabelReadsAsTop | app/utils/rentAnalytics.ts:285-290 | `510,000円~` reads as 500,000 |
| RentAnalytics.SummaryCounts | app/utils/rentAnalytics.ts:363-387 | valid and invalid add up to the responses, and each valid response gives one positive amount and one detail with it |
| RentAnalytics.AnalyzeRentCounts | app/utils/rentAnalytics.ts:306-405 | valid and invalid add up to the rows of the channel and month, with one positive amount and detail per valid answer |
| RentAnalytics.RentStatsSpec | app/utils/rentAnalytics.ts:389-394 | zeros without amounts; otherwise the mean, the upper-middle sorted value as median, and min and max that are amounts bounding all |
| RentAnalytics.SummaryStats | app/utils/rentAnalytics.ts:373-405 | the summary's average, median, min and max are the statistics of its amounts, and no valid answer means no amounts and no details |
| RentNormalizer.ToHalfWidth | app/utils/rentNormalizer.ts:30-34 | each character is converted on its own and the length is kept |
| RentNormalizer.HalfWidthDigits | app/utils/rentNormalizer.ts:30-34 | full-width digits become the same ASCII digit, other characters stay, and nothing else becomes a digit |
| RentNormalizer.NumberRun | app/utils/rentNormalizer.ts:48 | the longest prefix of digits and dots |
| RentNormalizer.ManMatchLeftmost | app/utils/rentNormalizer.ts:47-51 | the 万 pattern finds its leftmost match, or there is none |
| RentNormalizer.ParseDecimal | app/utils/rentNormalizer.ts:50 | `parseFloat` of a digits-and-dots run is never negative |
| RentNormalizer.FirstDigitRunSpec | app/utils/rentNormalizer.ts:58-61 | nothing exactly when there is no digit; otherwise a non-empty run of digits |
| RentNormalizer.DigitGivesNumber | app/utils/rentNormalizer.ts:39-64 | any answer with a digit, ASCII or full-width, gives a number |
| RentNormalizer.ExtractNumber | app/utils/rentNormalizer.ts:39-64 | no number read from an answer is negative: a minus sign is never read |
| RentNormalizer.NoDigitNoNumber | app/utils/rentNormalizer.ts:39-64 | an answer without digits gives no number, or NaN from a run of dots before 万 |
| RentNormalizer.DotsAreNaN | app/utils/rentNormalizer.ts:50 | `parseFloat` of dots alone is NaN |
| RentNormalizer.FirstRange | app/utils/rentNormalizer.ts:70-74 | nothing exactly when no band holds the value; otherwise the first band that does |
| RentNormalizer.RangeIndex | app/utils/rentNormalizer.ts:69-81 | the label chosen is always one of the bands |
| RentNormalizer.RentRangesAscending | app/utils/rentNormalizer.ts:4-25 | the 20 bands are strictly ascending and do not overlap |
| RentNormalizer.AscendingOrder | app/utils/rentNormalizer.ts:4-25 | in ascending bands every earlier band ends below every later band's start |
| RentNormalizer.LabelOfBand | app/utils/rentNormalizer.ts:69-74 | a value inside a band gets that band |
| RentNormalizer.LabelOfEveryBand | app/utils/rentNormalizer.ts:69-74 | a value inside one of the twenty bands gets that band |
| RentNormalizer.GetRangeLabel | app/utils/rentNormalizer.ts:69-81 | the label is always one of the twenty band labels and never `その他`, and an amount inside a band gets that band's label |
| RentNormalizer.LabelOutsideBands | app/utils/rentNormalizer.ts:76-80 | a value in no band gets the first band when below it, and the last band otherwise |
| RentNormalizer.GapGetsLastBand | app/utils/rentNormalizer.ts:69-80 | a value in the gap between two bands gets the last band |
| RentNormalizer.GapsGetTopLabel | app/utils/rentNormalizer.ts:69-80 | between 50,000 and 51,000 and between 500,000 and 510,000 the label is the top one; below 0 it is the first |
| RentNormalizer.BandLabelIsNotOther | app/utils/rentNormalizer.ts:4-25 | no band label is the "other" label |
| RentNormalizer.NormalizeRent | app/utils/rentNormalizer.ts:97-121 | the result is a band label or "other", and "other" exactly for a blank text or a text without a number |
| RentNormalizer.DigitNeverOther | app/utils/rentNormalizer.ts:107-120 | an answer with a digit always gets a band label |
| RentNormalizer.ManAnswerExample | app/utils/rentNormalizer.ts:47-51 | `15万` reads as 150,000 |
| RentNormalizer.LastBand | app/utils/rentNormalizer.ts:24 | there are 20 bands, the last open from 510,000, labelled `510,000円~` |
| RentNormalizer.TopBandExample | app/utils/rentNormalizer.ts:69-80 | NaN and amounts from 510,000 get `510,000円~` |
| RentNormalizer.FifthBand | app/utils/rentNormalizer.ts:9 | the fifth band is 126,000 to 150,000 with its label |
| RentNormalizer.FifthBandLabel | app/utils/rentNormalizer.ts:9 | that band's label is `126,000~150,000円` |
| RentNormalizer.WholeThousands | app/utils/rentNormalizer.ts:5-24 | a whole number of thousands is written with `,000` |
| RentNormalizer.FifthBandExample | app/utils/rentNormalizer.ts:9 | every amount from 126,000 to 150,000 gets that label |
| RentNormalizer.TextGetsBandOfItsNumber | app/utils/rentNormalizer.ts:107-120 | a non-blank answer gets the band of the number read from it |
| RentNormalizer.ManAnswerNormalized | app/utils/rentNormalizer.ts:87 | `15万` is normalised to `126,000~150,000円` |
| RentNormalizer.RangeAnswerTakesFirstNumber | app/utils/rentNormalizer.ts:46-51 | `10万〜15万` reads as 100,000: the leftmost `万` match is taken |
| RentNormalizer.RangeAnswerNormalized | app/utils/rentNormalizer.ts:97-121 | `10万〜15万` is normalised to `76,000~100,000円`, the band of its first number |
| RentNormalizer.FullWidthManAnswer | app/utils/rentNormalizer.ts:30-51 | the full-width `８万` reads as 80,000 |
| RentNormalizer.ThirdBand | app/utils/rentNormalizer.ts:7 | the third band is 76,000 to 100,000, labelled `76,000~100,000円` |
| RentNormalizer.FullWidthAnswerNormalized | app/utils/rentNormalizer.ts:88 | `８万` is normalised to `76,000~100,000円` |
| RentNormalizer.FifthBandLabelNumber | app/utils/rentNormalizer.ts:39-64 | `126,000~150,000円` reads as 126,000,150,000: with the commas and `~` deleted, both bounds form one digit run |
| RentNormalizer.FifthBandLabelRenormalized | app/utils/rentNormalizer.ts:97-121 | normalising the label `126,000~150,000円` again gives `510,000円~`: the normaliser is not idempotent |
| RentNormalizer.UndecidedIsOther | app/utils/rentNormalizer.ts:94 | `未定` holds no number and is normalised to `その他` |
| RentNormalizer.RentHeaderTestsAgree | app/utils/rentNormalizer.ts:126-128 | the normaliser and the rent analysis recognise the same rent headers |
| RentNormalizer.RentColumns | app/utils/rentNormalizer.ts:138 | exactly the headers that are rent columns |
| RentNormalizer.NormalizedFieldStep | app/utils/rentNormalizer.ts:147-152 | one more rent column rewrites its non-empty field to its label and leaves the others |
| RentNormalizer.NormalizeRow | app/utils/rentNormalizer.ts:145-154 | the new row has the same keys, non-empty rent fields replaced by their labels, every other field unchanged |
| RentNormalizer.NormalizeRentInData | app/utils/rentNormalizer.ts:133-155 | one normalised row per row, and rows unchanged when there is no rent column |
| RentNormalizer.NormalizationKeepsOtherFields | app/utils/rentNormalizer.ts:145-154 | fields outside the rent columns, and empty rent fields, are kept |
| RentNormalizer.BandLabelParsesToItsMaximum | app/utils/rentNormalizer.ts:5-23 | the rent analysis reads a closed band's label as the band's maximum |
| RentNormalizer.OpenBandLabelParsesToTop | app/utils/rentNormalizer.ts:24 | the rent analysis reads the open top band's label as 500,000 |
| MediaAnalytics.FirstMatchingRuleNone | app/utils/mediaAnalytics.ts:215-228 | no keyword rule applies exactly when none matches |
| MediaAnalytics.FirstMatchingRuleWins | app/utils/mediaAnalytics.ts:215-227 | the first matching rule, in the source's order, decides the channel |
| MediaAnalytics.FirstMatchingRuleIsChannel | app/utils/mediaAnalytics.ts:215-227 | when every rule names a channel, the rule found gives a channel |
| MediaAnalytics.NormalizeMediaName | app/utils/mediaAnalytics.ts:205-229 | a normalised channel name is always one of the channel names |
| MediaAnalytics.NormalizeExactName | app/utils/mediaAnalytics.ts:206-213 | a trimmed value equal to a channel name is that channel |
| MediaAnalytics.NormalizeByKeyword | app/utils/mediaAnalytics.ts:215-227 | any other value gets the channel of the first keyword rule its lower-case form matches |
| MediaAnalytics.NormalizeUnknown | app/utils/mediaAnalytics.ts:205-229 | no channel exactly when the value is no channel name and matches no keyword rule |
| MediaAnalytics.KelvinSignAnswerIsTikTok | app/utils/mediaAnalytics.ts:216-218 | `TI`, the Kelvin sign, `TOK` is lower-cased to `tiktok` and counts as TikTok |
| MediaAnalytics.InstagramBeforeLine | app/utils/mediaAnalytics.ts:217-221 | `instagram / line` counts as Instagram, the earlier rule |
| MediaAnalytics.NormalizeRowChannel | app/utils/mediaAnalytics.ts:46 | the row's channel is read from its channel column as specified by `RowChannel` |
| MediaAnalytics.CountLeadsByMediaAndDate | app/utils/mediaAnalytics.ts:24-55 | the count is the number of rows of the channel on that date |
| MediaAnalytics.CountLeadsByMedia | app/utils/mediaAnalytics.ts:94-123 | the count is the number of rows of the channel in that month |
| MediaAnalytics.CountAllTimeLeadsByMedia | app/utils/mediaAnalytics.ts:234-250 | the count is the number of rows of the channel |
| MediaAnalytics.DayWithinMonth | app/utils/mediaAnalytics.ts:108-112 | a day of a month never has more of a channel's leads than the month |
| MediaAnalytics.MonthWithinAllTime | app/utils/mediaAnalytics.ts:234-250 | a month never has more of a channel's leads than all time |
| MediaAnalytics.DaysInCalendarMonth | app/utils/mediaAnalytics.ts:62 | a month has 28 to 31 days, and February 29 exactly in leap years |
| MediaAnalytics.DaysBeforeMonthZero | app/utils/mediaAnalytics.ts:62 | `new Date(y, m, 0).getDate()` is between 28 and 31 |
| MediaAnalytics.DaysInMonthOf | app/utils/mediaAnalytics.ts:61-62 | the number of days generated for a month text is at most 31 |
| MediaAnalytics.DaysBeforeMonthZeroPlain | app/utils/mediaAnalytics.ts:62 | for years from 100 and months 1 to 12 it is the calendar length of the month |
| MediaAnalytics.DaysBeforeMonthZeroTwoDigitYear | app/utils/mediaAnalytics.ts:62 | years 0 to 99 count as 1900 onwards |
| MediaAnalytics.DaysBeforeMonthZeroRollsOver | app/utils/mediaAnalytics.ts:62 | month 13 rolls over to January's 31 days, and month 0 to the previous December's |
| MediaAnalytics.GenerateMonthDates | app/utils/mediaAnalytics.ts:60-71 | one `YYYY-MM-DD` date per day of the month, in order |
| MediaAnalytics.MonthDatesAscending | app/utils/mediaAnalytics.ts:65-67 | later days give strictly later, distinct dates |
| MediaAnalytics.MonthDateInMonth | app/utils/mediaAnalytics.ts:66 | each generated date starts with its month |
| MediaAnalytics.GetDailyLeadCounts | app/utils/mediaAnalytics.ts:76-89 | one entry per day of the month with the number of the channel's leads on that day |
| MediaAnalytics.DailyDatesDistinct | app/utils/mediaAnalytics.ts:65-67 | the daily dates are pairwise distinct |
| MediaAnalytics.DailyLeadsWithinMonth | app/utils/mediaAnalytics.ts:76-123 | the daily counts add up to at most the month's leads of the channel |
| MediaAnalytics.CalculateMonthlyMediaReport | app/utils/mediaAnalytics.ts:128-165 | the month's leads of the channel, the summed costs and contracts of its records, and the cost per lead, contract rate, cost per contract and cost per day (0 when dividing by 0) |
| MediaAnalytics.CalculateMonthlyOverallReport | app/utils/mediaAnalytics.ts:170-200 | one report per channel in order, totals summed over them, and the overall ratios of the totals |
| MediaAnalytics.MonthlyTotalCountsEachLeadOnce | app/utils/mediaAnalytics.ts:176-181 | the monthly total counts each row at most once: the rows of the month whose channel is known |
| MediaAnalytics.Prefix7 | app/utils/mediaAnalytics.ts:272 | `substring(0, 7)` is the first seven characters, or the whole text when shorter |
| MediaAnalytics.CalculateAllTimeMediaReport | app/utils/mediaAnalytics.ts:255-290 | the channel's leads, the summed costs and contracts of its records, their ratios, and the number of distinct months with costs |
| MediaAnalytics.MonthCountBounds | app/utils/mediaAnalytics.ts:272-273 | the month count is at most the number of cost records, and every record's month is counted |
| MediaAnalytics.StringDateParts | app/utils/mediaAnalytics.ts:315-318 | exactly the date parts of the rows' text dates |
| MediaAnalytics.DateRangeOf | app/utils/mediaAnalytics.ts:320-324 | empty bounds without dates; otherwise the start and end are among the dates |
| MediaAnalytics.DateRangeBounds | app/utils/mediaAnalytics.ts:320-324 | every date lies between the start and the end |
| MediaAnalytics.CalculateAllTimeOverallReport | app/utils/mediaAnalytics.ts:295-336 | one report per channel, totals summed over them, overall ratios, and the range of the rows' dates |
| MediaAnalytics.AllTimeTotalCountsEachLeadOnce | app/utils/mediaAnalytics.ts:300-305 | the all-time total counts each row at most once: the rows whose channel is known |
| RentOverview.RowYearMonth | app/utils/rentOverview.ts:34-41 | a month read from a row is `YYYY-MM` |
| RentOverview.RowYearMonthSpec | app/utils/rentOverview.ts:34-41 | a month is read exactly from a `YYYY-MM` or `YYYY/MM` date part, with its digits, and a dash date gives its first seven characters |
| RentOverview.MonthListSpec | app/utils/rentOverview.ts:24-44 | the collected months are exactly the rows' months, each once |
| RentOverview.CollectYearMonths | app/utils/rentOverview.ts:24-42 | the loop gives the specification `MonthList` |
| RentOverview.ChannelAnalyzerCountsAmounts | app/utils/rentOverview.ts:53-66 | the rent analysis gives as many amounts as valid answers, so the overview may rely on it |
| RentOverview.CollectMonth | app/utils/rentOverview.ts:52-68 | the inner loop gives one month's entries and amounts over the channels |
| RentOverview.CollectStats | app/utils/rentOverview.ts:51-69 | the outer loop gives the entries and amounts of all months |
| RentOverview.GenerateRentOverviewWith | app/utils/rentOverview.ts:14-94 | the summary is the overview of the channel analyses over the sorted months |
| RentOverview.GenerateRentOverview | app/utils/rentOverview.ts:14-94 | the same with the application's rent conversion table |
| RentOverview.MonthEntriesSpec | app/utils/rentOverview.ts:52-68 | a month's entries are for that month, of distinct listed channels with valid answers, their statistics, and counts adding up to the amounts collected |
| RentOverview.MonthEntriesComplete | app/utils/rentOverview.ts:52-68 | every channel with valid answers in the month has an entry |
| RentOverview.MonthEntriesOrdered | app/utils/rentOverview.ts:52-68 | a month's entries follow the channel order |
| RentOverview.EntriesSpec | app/utils/rentOverview.ts:51-69 | all entries are for listed months with valid answers, and their counts add up to the amounts collected |
| RentOverview.EntriesAscending | app/utils/rentOverview.ts:44-69 | with the months sorted, the entries are in month order |
| RentOverview.OverviewSpec | app/utils/rentOverview.ts:14-94 | the total is the sum of the entries' counts, each entry is for a month some row has and lies in the period, entries are in month order, and no responses mean average and median 0 |
| RentOverview.MediaDisplayName | app/utils/rentOverview.ts:99-101 | the display name is the channel name itself |
| LegacyRentParse.LineEnd | test-rent-parse.js:12 | the first line terminator, where `.` stops matching |
| LegacyRentParse.LastSeparator | test-rent-parse.js:12 | the separator found lies between the first character and the given position |
| LegacyRentParse.RangeUpper | test-rent-parse.js:12-15 | the upper part of a range match is non-empty and shorter than the text |
| LegacyRentParse.LastSeparatorSpec | test-rent-parse.js:12 | the greedy match takes the last separator: none exactly when there is none, and none after the one found |
| LegacyRentParse.RangeUpperOneLine | test-rent-parse.js:12-15 | on one line, a range exactly when a separator has a character on each side, and the upper part follows the last such separator |
| LegacyRentParse.NumericStringIsDigits | test-rent-parse.js:25-33 | the removals leave exactly the digits of the text |
| LegacyRentParse.BlankIsInvalid | test-rent-parse.js:7-9 | a blank answer is invalid |
| LegacyRentParse.RangeReadsUpperPart | test-rent-parse.js:12-17 | a range answer reads as its shorter upper part does |
| LegacyRentParse.DigitsDecide | test-rent-parse.js:25-54 | other answers are valid exactly when their digits are not all zero, and then read as the digits, times 10,000 with a 万 unit or below 100 |
| LegacyRentParse.ParseLegacyRent | test-rent-parse.js:40-54 | valid exactly when there is a value, and every value is at least 100 |
| LegacyRentParse.PlainAnswer | test-rent-parse.js:25-54 | an answer without a range reads as its digits, scaled |
| LegacyRentParse.NoUnit | test-rent-parse.js:20-22 | without 万, マ or 萬 there is no 万 unit |
| LegacyRentParse.NumberAndUnit | test-rent-parse.js:20-33 | digits followed by 万, マン or 萬 keep the digits and have the unit |
| LegacyRentParse.SampleTenMan | test-rent-parse.js:59 | `10万` reads as 100,000 |
| LegacyRentParse.SampleSixteen | test-rent-parse.js:60 | `16` reads as 160,000 |
| LegacyRentParse.SampleSeventeenMan | test-rent-parse.js:61 | `17マン` reads as 170,000 |
| LegacyRentParse.SampleTwentyOldMan | test-rent-parse.js:62 | `20萬` reads as 200,000 |
| LegacyRentParse.SampleTwentyMan | test-rent-parse.js:63 | `20万`, the upper part of the range sample, reads as 200,000 |
| LegacyRentParse.SampleRange | test-rent-parse.js:63 | `10万〜20万` reads as 200,000, the upper part, with `20万` as its original text |
| LegacyRentParse.SampleRangeUpper | test-rent-parse.js:63 | the range match of `10万〜20万` gives `20万` |
| LegacyRentParse.SampleGroupedYen | test-rent-parse.js:64 | `150,000` reads as 150,000 |
| LegacyRentParse.GroupedDigits | test-rent-parse.js:26-33 | removing the comma joins the digit groups |
| LegacyRentParse.SampleGroupedValue | test-rent-parse.js:64 | the joined digits are the number 150,000 |
| RentMapGenerator.OneTildeSplit | generate-rent-map.js:16-17 | a text with one `~` splits into the parts before and after it |
| RentMapGenerator.OneTilde | generate-rent-map.js:16-25 | with one `~`, the upper part read without commas when not blank, else the lower part |
| RentMapGenerator.SixDigitBandTakesLowerEnd | generate-rent-map.js:16-28 | a `ddd,ddd~` band contains `~`, so it is read as its lower end and the 500,000 branch is never reached |
| RentMapGenerator.OpenBandExample | generate-rent-map.js:16-28 | `401,000~` gives 401,000 |
| RentMapGenerator.NoneTextIsZero | generate-rent-map.js:14 | `なし` gives 0 |
| RentMapGenerator.ClosedBandGivesUpper | generate-rent-map.js:16-21 | `x~y`, with commas and optional `円`, gives y |
| RentMapGenerator.AmountAfterTilde | generate-rent-map.js:16-21 | any text then `~` and an amount gives that amount |
| RentMapGenerator.OpenBandGivesLower | generate-rent-map.js:22-23 | `x~` gives x |
| RentMapGenerator.UpToGivesUpper | generate-rent-map.js:16-21 | `~y` gives y |
| RentMapGenerator.AmountGivesItself | generate-rent-map.js:30 | an amount alone gives itself |
| RentMapGenerator.ConvertToUpperLimit | generate-rent-map.js:13-31 | only a text with exactly one `~` can give NaN; every other path falls back to 0 |
| RentMapGenerator.UpperLimitEntriesSound | generate-rent-map.js:33-35 | every kept entry is an input key with its converted number |
| RentMapGenerator.UpperLimitEntriesComplete | generate-rent-map.js:33-35 | every input whose conversion is a number is kept |
| RentMapGenerator.UpperLimitEntriesLength | generate-rent-map.js:33-35 | at most one entry per input, and exactly one each when all convert |
| RentMapGenerator.UpperLimitEntries | generate-rent-map.js:33-35 | never more entries than inputs |
| RentMapGenerator.AmountReadsBack | generate-rent-map.js:21-23 | an amount written with commas reads back as itself on either side of `~` |

## Left out

- File reading for the CSV upload (`FileReader`, `TextDecoder` and the Shift_JIS fallback, app/utils/csvParser.ts:3-38 and 129-137) is not modelled. The model starts from the decoded text.
- The generic `catch` that rewraps unexpected exceptions (app/utils/csvParser.ts:121-126) is not modelled. The parse has no exceptions besides the modelled errors.
- `console.warn` and `console.log` output is not modelled. The extra-field and skipped-line warnings are returned as message lists instead.
- The empty-header checks (app/utils/csvParser.ts:63-69, app/utils/sheetsLoader.ts:33-35) cannot fail: `LineFields` always gives at least one field. No branch models them.
- The network part of `loadFromGoogleSheets` (`fetch`, `response.ok`, app/utils/sheetsLoader.ts:13-21) is not modelled. The text after the fetch is the input.
- Only the no-data message of the loader's `catch` wrapping (app/utils/sheetsLoader.ts:79-84) is modelled.
- A header named `__proto__` is not modelled. A row is a plain map, and assigning `__proto__` on a JavaScript object does not create a key.
- The `alert` of the save handler and the rendering of every component are not modelled. The save's effect on the records and the storage is.
- `app/utils/storage.ts` (JSON and `localStorage` helpers used only by the screens) is not part of this model.
- `test-date-detection.js` is not part of this model. It is a copy of `isDateString`, which `StatsCalculator` models.
- JSON parsing and `localStorage` are modelled through the stored value: nothing, a decoded value, or unreadable text.
- The host's date functions (`new Date(text)`, `getHours`, `getDay`, `toISOString`, `toLocaleString`, `setHours(23, 59, 59, 999)`) are fields of the `Host` parameter. They are not defined.
- Time zones and the current time are inputs through the `Host` parameter and the time argument.
- Floating-point arithmetic is modelled on exact reals.
  - Ratios and percentages are stated as exact quotients (`IsRatio`, `IsPercent`).
  - The two-decimal and one-decimal rounding is stated to within 0.005 and 0.05.
  - The 80% thresholds of the data-type detection are exact integer comparisons.
- `parseInt` and `parseFloat` are modelled on unbounded integers and exact decimals.
  - Precision loss above 2^53 is not modelled.
  - `parseFloat` results of ±Infinity are not modelled: a value that would give them reads as no number.
- Text is a sequence of code points. UTF-16 code units (surrogate pairs in `length` and `substring`) are not modelled.
- JsText.ToLower: `toLowerCase` is modelled for the ASCII letters and the Kelvin sign (U+212A), the one other character whose lower case is an ASCII letter. Other cased letters (Latin-1, Greek, Cyrillic, full-width Latin) are kept as they are, and `İ` (U+0130) stays one character where JavaScript gives `i` and a combining dot. The lower-cased text is only searched for ASCII and Japanese words (the channel keywords, `date`, `犬`, `猫`), and none of these contains a character those other letters turn into, ends in `i`, or contains a combining dot, so no search result changes.
- MediaAnalytics.NormalizeMediaName: lower-cases through `JsText.ToLower`, so it follows the mapping described in the line above; for example `TI\u212ATOK` is TikTok (`KelvinSignAnswerIsTikTok`).
- MediaAnalytics.NormalizeByKeyword: "its lower-case form" is `JsText.ToLower`, as for `NormalizeMediaName` above.
- MediaAnalytics.NormalizeUnknown: "matches no keyword rule" is about `JsText.ToLower` of the value, as for `NormalizeMediaName` above.
- AdPerformance.GetResponseCountsByDate: the `localeCompare` sort of the day keys (adPerformance.ts:59) is modelled as code-point order. The two agree on `YYYY-MM-DD` keys. They can differ on the expanded-year keys that `toISOString` writes for years before 0 or after 9999 (`-000001-…`, `+010000-…`), which ICU collation orders differently.
- PetTypeDistributionSpec: answers that name a property every JavaScript object inherits are counted like any other answer. In the source, an answer `__proto__` is dropped: the assignment to `petTypeCounts['__proto__']` does not create a key. Answers such as `toString` or `constructor` start from the inherited function, so their count becomes a string. For such answers the source's counts need not be numbers or add up to the rows.
- CalculatePetTypeDistribution: the count object is a map with no inherited names, as for `PetTypeDistributionSpec` above.
- StatsCalculator.LengthStatsSpec: the length statistics of a column with no text values, which JavaScript computes as ±Infinity and NaN, are modelled as absent.
- RentAnalytics.TableAnswer: the round trip from each conversion table key to its band is stated for any table and key, not checked entry by entry for the 205 literal entries.
- The file input and the map building of generate-rent-map.js (lines 1-11) are not modelled. Its `localeCompare` sort and its printing (lines 36-41) are not modelled either. The entry list before sorting is what is modelled.
- The console driver of test-rent-parse.js (lines 67-89) is not modelled. Its sample answers are proved one by one instead.

## Findings

| source | as written | input that shows it | evidently intended | confidence | as-written member | corrected member |
|---|---|---|---|---|---|---|
| app/utils/rentAnalytics.ts:255 | `trimmed in RENT_CONVERSION_MAP` also finds the names every object inherits from `Object.prototype`, so such an answer counts as valid, with a function as its rent | the answer `toString` | only the table's own keys are looked up, so `toString` matches no format and is invalid | not executed | RentAnalytics.ParseRentValueAsWritten (shown by RentAnalytics.InheritedNameAcceptedAsWritten) | RentAnalytics.ParseRentValueWith (agreeing everywhere else: RentAnalytics.AsWrittenAgreesElsewhere) |
