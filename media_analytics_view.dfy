/**
 * The cost-record state of the channel analysis screen: the records of the selected month
 * and channel shown for editing, and the save handler that replaces exactly that slice of the
 * records with the edited list and writes the whole list to storage.
 */
module MediaAnalyticsView {
  import opened Seqs
  import opened MediaTypes
  import opened MediaAdStorage

  /** `!(cost.date.startsWith(selectedMonth) && cost.mediaType === selectedMedia)` */
  function OutsideSlice(yearMonth: string, mediaType: string): DailyAdCost -> bool {
    c => !(InMonth(c, yearMonth) && OfType(c, mediaType))
  }

  /** The records the save handler keeps. */
  function OtherCosts(costs: seq<DailyAdCost>, yearMonth: string, mediaType: string): seq<DailyAdCost> {
    Filter(costs, OutsideSlice(yearMonth, mediaType))
  }

  /** The records the screen shows for the selected month and channel (none without a month). */
  function SelectedCosts(costs: seq<DailyAdCost>, yearMonth: string, mediaType: string): seq<DailyAdCost> {
    if yearMonth == "" then [] else CostsOfMonthAndType(costs, yearMonth, mediaType)
  }

  /** The kept records are those outside the slice, in their original order. */
  lemma OtherCostsAreOutsideSlice(costs: seq<DailyAdCost>, yearMonth: string, mediaType: string)
    ensures var kept := OtherCosts(costs, yearMonth, mediaType);
      IsSubsequence(kept, costs) &&
      forall c :: c in kept <==> c in costs && !(InMonth(c, yearMonth) && OfType(c, mediaType))
  {
    var p := OutsideSlice(yearMonth, mediaType);
    FilterIsSubsequence(costs, p);
    forall c | c in costs && p(c) {
      FilterKeeps(costs, p, c);
    }
  }

  /** With a month selected, the records shown and the records kept split the stored list:
    * the save removes exactly what the screen showed. */
  lemma ShownAndKeptPartition(costs: seq<DailyAdCost>, yearMonth: string, mediaType: string)
    requires yearMonth != ""
    ensures multiset(SelectedCosts(costs, yearMonth, mediaType)) + multiset(OtherCosts(costs, yearMonth, mediaType)) == multiset(costs)
    ensures |SelectedCosts(costs, yearMonth, mediaType)| + |OtherCosts(costs, yearMonth, mediaType)| == |costs|
  {
    FiltersPartition(costs, MonthAndTypeSelector(yearMonth, mediaType), OutsideSlice(yearMonth, mediaType));
  }

  /** Without a month the screen shows nothing, yet every text starts with the empty month, so
    * a save then drops every record of the channel. */
  lemma SaveWithoutMonthDropsChannel(costs: seq<DailyAdCost>, mediaType: string)
    ensures SelectedCosts(costs, "", mediaType) == []
    ensures forall c :: c in OtherCosts(costs, "", mediaType) <==> c in costs && c.mediaType != mediaType
  {
    OtherCostsAreOutsideSlice(costs, "", mediaType);
  }

  /** The screen's state: the records it holds, the selected month and channel, and the store
    * it writes to. */
  class CostEditor {
    var adCosts: seq<DailyAdCost>
    var selectedMonth: string
    var selectedMedia: string
    const store: MediaAdStore

    /** The first render: the records the store holds, no month yet, Instagram selected. */
    constructor (s: MediaAdStore)
      ensures store == s && adCosts == s.Loaded() && selectedMonth == "" && selectedMedia == "Instagram"
    {
      store := s;
      adCosts := s.Loaded();
      selectedMonth := "";
      selectedMedia := "Instagram";
    }

    /** `selectedMediaAdCosts` */
    function Shown(): seq<DailyAdCost>
      reads this
    {
      SelectedCosts(adCosts, selectedMonth, selectedMedia)
    }

    /** `handleSave(newAdCosts)`: the records outside the selected slice, then the new ones,
      * become the state and are written to the store. */
    method HandleSave(newAdCosts: seq<DailyAdCost>)
      modifies this, store
      ensures adCosts == OtherCosts(old(adCosts), selectedMonth, selectedMedia) + newAdCosts
      ensures selectedMonth == old(selectedMonth) && selectedMedia == old(selectedMedia)
      ensures store.quotaExceeded == old(store.quotaExceeded)
      ensures !store.quotaExceeded ==> store.Loaded() == adCosts
      ensures store.quotaExceeded ==> store.entry == old(store.entry)
    {
      var otherAdCosts := Filter(adCosts, OutsideSlice(selectedMonth, selectedMedia));
      var updatedAdCosts := otherAdCosts + newAdCosts;
      adCosts := updatedAdCosts;
      store.Save(updatedAdCosts);
    }
  }

  /** After a save with a month selected, the screen shows the saved records again, and the
    * list keeps every other record, in order, followed by the new ones. */
  lemma SaveThenShow(costs: seq<DailyAdCost>, yearMonth: string, mediaType: string, newCosts: seq<DailyAdCost>)
    requires yearMonth != ""
    requires forall c :: c in newCosts ==> InMonth(c, yearMonth) && OfType(c, mediaType)
    ensures var updated := OtherCosts(costs, yearMonth, mediaType) + newCosts;
      SelectedCosts(updated, yearMonth, mediaType) == newCosts &&
      |updated| == |costs| - |SelectedCosts(costs, yearMonth, mediaType)| + |newCosts|
  {
    var kept := OtherCosts(costs, yearMonth, mediaType);
    var sel := MonthAndTypeSelector(yearMonth, mediaType);
    ShownAndKeptPartition(costs, yearMonth, mediaType);
    FilterAppend(kept, newCosts, sel);
    FilterNone(kept, sel);
    FilterAll(newCosts, sel);
  }
}
