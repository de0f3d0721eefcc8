/** The advertising channels and the records a user enters per channel and day. */
module MediaTypes {

  /** `MEDIA_TYPES`, in the order reports list the channels. */
  const MediaTypeNames: seq<string> := [
    "Instagram", "TikTok", "YouTube", "Lemon8", "LINE",
    "ラグジュアリーカード", "ホームページ", "チラシ", "その他（紹介等）", "CLASSY(雑誌)"
  ]

  predicate IsMediaType(s: string) {
    s in MediaTypeNames
  }

  /** `MediaType`: one of the channel names. */
  type MediaType = s: string | IsMediaType(s) witness "Instagram"

  /** `DailyAdCost`: the cost and the contracts recorded for one channel on one `YYYY-MM-DD` day.
    * Records come back from storage unchecked, so the channel is kept as the stored text. */
  datatype DailyAdCost = DailyAdCost(
    id: string,
    date: string,
    mediaType: string,
    cost: real,
    contractCount: real,
    note: string)

  /** The channel names are pairwise different. */
  lemma MediaTypeNamesDistinct()
    ensures forall i, j :: 0 <= i < j < |MediaTypeNames| ==> MediaTypeNames[i] != MediaTypeNames[j]
  {
  }
}
