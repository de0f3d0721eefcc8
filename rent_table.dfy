/** The conversion table of the rent answers, and the parser and analysis that use it. */
module RentTable {
  import opened Wrappers
  import opened Spreadsheet
  import opened MediaTypes
  import opened RentAnalytics

  /** `RENT_CONVERSION_MAP`, entry by entry in source order. It is written as seventeen runs of
    * consecutive entries so that each entry can be reached without walking the whole list. */
  const RentConversionTable: seq<(string, RentBand)> :=
    Entries1 + Entries2 + Entries3 + Entries4 + Entries5 + Entries6 + Entries7 + Entries8 + Entries9 +
    Entries10 + Entries11 + Entries12 + Entries13 + Entries14 + Entries15 + Entries16 + Entries17

  const Entries1: seq<(string, RentBand)> := [
    ("~60,000円", 60000),
    ("~70,000円", 70000),
    ("~80,000円", 80000),
    ("~90,000円", 90000),
    ("~100,000円", 100000),
    ("~110,000円", 110000),
    ("~120,000円", 120000),
    ("~130,000円", 130000),
    ("~140,000円", 140000),
    ("~150,000円", 150000),
    ("~160,000円", 160000),
    ("~170,000円", 170000)
  ]

  const Entries2: seq<(string, RentBand)> := [
    ("~180,000円", 180000),
    ("~190,000円", 190000),
    ("~200,000円", 200000),
    ("201,000~250,000円", 250000),
    ("251,000~300,000円", 300000),
    ("301,000~350,000円", 350000),
    ("351,000~400,000円", 400000),
    ("401,000円~", 500000),
    ("〜100,000", 100000),
    ("〜100000", 100000),
    ("〜13万", 130000),
    ("〜14万前後", 140000)
  ]

  const Entries3: seq<(string, RentBand)> := [
    ("〜17", 170000),
    ("〜20万円", 200000),
    ("〜24万", 250000),
    ("〜7万", 70000),
    ("〜9万円", 90000),
    ("~10.5万", 110000),
    ("~80,000、85,000~の場合ネット込", 90000),
    ("¥200000", 200000),
    ("10", 100000),
    ("10-25", 250000),
    ("10〜14", 140000),
    ("10〜20万", 200000)
  ]

  const Entries4: seq<(string, RentBand)> := [
    ("10.5万までなら", 110000),
    ("100000〜110000", 110000),
    ("100万以内", 100000),
    ("10万", 100000),
    ("10万〜12万", 120000),
    ("10万から13万くらい", 130000),
    ("10万ぐらい", 100000),
    ("10万以下", 100000),
    ("10万以内", 100000),
    ("10万位ない", 100000),
    ("10万円", 100000),
    ("10万円くらい", 100000)
  ]

  const Entries5: seq<(string, RentBand)> := [
    ("10万円以下", 100000),
    ("10万円以内", 100000),
    ("10万円前後", 100000),
    ("10万円前後、", 100000),
    ("10万前後", 100000),
    ("10万未満理想", 100000),
    ("11.5:", 120000),
    ("１１万", 110000),
    ("11万以下", 110000),
    ("11万円", 110000),
    ("11万円〜12万円", 120000),
    ("12-13万", 130000)
  ]

  const Entries6: seq<(string, RentBand)> := [
    ("12.5万円 ~130,000", 130000),
    ("120000", 120000),
    ("12万", 120000),
    ("12万以下", 120000),
    ("12万円", 120000),
    ("12万円まで", 120000),
    ("13", 130000),
    ("13〜14万", 140000),
    ("130,000(駐車場込み)", 130000),
    ("13000", 130000),
    ("130000", 130000),
    ("13以下", 130000)
  ]

  const Entries7: seq<(string, RentBand)> := [
    ("13万", 130000),
    ("13万以下", 130000),
    ("13万以下（駐車場込みでこれくらいが理想", 130000),
    ("13万円", 130000),
    ("13万円以下", 130000),
    ("14.5万", 150000),
    ("14~18", 180000),
    ("140000", 140000),
    ("14万", 140000),
    ("14万円", 140000),
    ("15", 150000),
    ("15〜20", 200000)
  ]

  const Entries8: seq<(string, RentBand)> := [
    ("15〜22万円", 250000),
    ("15〜48", 401000),
    ("15.5万", 160000),
    ("１５～１８万", 180000),
    ("150,000", 150000),
    ("150,000以下", 150000),
    ("150000", 150000),
    ("15万", 150000),
    ("15万〜20万", 200000),
    ("15万以下", 150000),
    ("15万以内", 150000),
    ("15万位内", 150000)
  ]

  const Entries9: seq<(string, RentBand)> := [
    ("15万円", 150000),
    ("15万円以下", 150000),
    ("15万円程度", 150000),
    ("15万円程度まで", 150000),
    ("15万管理費込み", 150000),
    ("15万前後", 150000),
    ("15万程度", 150000),
    ("16", 160000),
    ("16〜22万円", 250000),
    ("16万", 160000),
    ("16万以内", 160000),
    ("16万円前後", 160000)
  ]

  const Entries10: seq<(string, RentBand)> := [
    ("17.5万", 180000),
    ("170000", 170000),
    ("17マン", 170000),
    ("17万以下", 170000),
    ("17万位内", 170000),
    ("17万円以下", 170000),
    ("18", 180000),
    ("180,000円", 180000),
    ("18万", 180000),
    ("18万まで", 180000),
    ("18万以下", 180000),
    ("18万以内で、もっと安いと嬉しいです", 180000)
  ]

  const Entries11: seq<(string, RentBand)> := [
    ("18万円まで", 180000),
    ("20", 200000),
    ("20万", 200000),
    ("２０万", 200000),
    ("20万以内", 200000),
    ("20万位内", 200000),
    ("20万円まで", 200000),
    ("20万円以下が理想", 200000),
    ("20万前後", 200000),
    ("20万程度", 200000),
    ("20萬", 200000),
    ("210000円", 250000)
  ]

  const Entries12: seq<(string, RentBand)> := [
    ("22万", 250000),
    ("23万以下", 250000),
    ("24", 250000),
    ("25", 250000),
    ("250000", 250000),
    ("25万", 250000),
    ("25万まで", 250000),
    ("25万以下", 250000),
    ("25万以内", 250000),
    ("25万円前後", 250000),
    ("25万前後", 250000),
    ("26万円", 300000)
  ]

  const Entries13: seq<(string, RentBand)> := [
    ("30", 300000),
    ("30万ほどまで", 300000),
    ("30万円", 300000),
    ("30万円まで", 300000),
    ("30万円以内", 300000),
    ("35以内", 350000),
    ("40", 400000),
    ("400,000", 400000),
    ("400000以下", 400000),
    ("40万まで", 400000),
    ("40万以内", 400000),
    ("4０万前後", 400000)
  ]

  const Entries14: seq<(string, RentBand)> := [
    ("45マン以内", 401000),
    ("45以下", 401000),
    ("500,000円", 401000),
    ("50万以下", 401000),
    ("55000", 60000),
    ("5万", 60000),
    ("60,000円以内", 60000),
    ("65,000", 70000),
    ("65000まで", 70000),
    ("6万から10万前後", 100000),
    ("6万以下", 60000),
    ("7-10万くらい", 100000)
  ]

  const Entries15: seq<(string, RentBand)> := [
    ("70,000円", 70000),
    ("75000以内", 80000),
    ("7万", 70000),
    ("7万から13万", 130000),
    ("7万以下を希望だけど、7.5万まで許容範囲です", 80000),
    ("7万以下希望", 70000),
    ("7万円", 70000),
    ("8,5000円", 90000),
    ("8.5", 90000),
    ("85,000", 90000),
    ("85000", 90000),
    ("8万", 80000)
  ]

  const Entries16: seq<(string, RentBand)> := [
    ("８万", 80000),
    ("8万以内", 80000),
    ("8万円", 80000),
    ("8万円くらい", 80000),
    ("8万円以内", 80000),
    ("8万円前後", 80000),
    ("9.5", 100000),
    ("9.5万", 100000),
    ("9.5万以下", 100000),
    ("9.5万以内", 100000),
    ("90,000", 90000),
    ("90000", 90000)
  ]

  const Entries17: seq<(string, RentBand)> := [
    ("95000", 100000),
    ("9万", 90000),
    ("9万円以内", 90000),
    ("9万円台", 100000),
    ("9万程度", 90000),
    ("MAX15万まで", 150000),
    ("できれば20万以下(管理費/駐車場代込み)", 200000),
    ("ない", 0),
    ("管理費込み11万ぐらいまで", 110000),
    ("希望は10万 とにかく多頭飼い可能物件", 100000),
    ("十万以下", 100000),
    ("駐車場込みでMAX15万", 150000),
    ("部屋次第", 0)
  ]

  /** `parseRentValue`: the result keeps the answer as `original`, is valid exactly when it
    * carries a value, and that value is positive. */
  function ParseRentValue(value: string): (r: RentParseResult)
    ensures r.original == value && (r.isValid <==> r.value.Some?)
    ensures r.isValid ==> r.value.value > 0
  {
    ParseRentValueWith(RentConversionTable, value)
  }

  /** The pet column `analyzeRent` reads when its caller does not name one. */
  const DefaultPetColumn: string := "ペットは何匹？"

  /** `analyzeRent`: no analysis exactly when no header names the rent answer. */
  function AnalyzeRent(h: Host, data: Dataset, mediaType: MediaType, yearMonth: string,
                       dateColumn: string, mediaColumn: string, petColumn: string): (r: Option<RentAnalysis>)
    ensures r.None? <==> forall i :: 0 <= i < |data.headers| ==> !IsRentHeader(data.headers[i])
  {
    AnalyzeRentNeedsRentColumn(h, RentConversionTable, data, mediaType, yearMonth, dateColumn, mediaColumn, petColumn);
    AnalyzeRentWith(h, RentConversionTable, data, mediaType, yearMonth, dateColumn, mediaColumn, petColumn)
  }
}
