/**
 * The per-day advertising cost records kept in the browser's `localStorage` under the key
 * `csv-stats-media-ad-costs`, stored as a bare JSON array.
 */
module MediaAdStorage {
  import opened Wrappers
  import opened JsText
  import opened Seqs
  import opened MediaTypes

  const StorageKey: string := "csv-stats-media-ad-costs"

  /** What `JSON.parse` makes of the stored text. */
  datatype StoredValue = CostArray(costs: seq<DailyAdCost>) | NotAnArray | Unparseable

  /** `loadMediaAdCosts` on a given stored entry: nothing stored (`null` or `''`), a value that
    * is not an array, and text that does not parse all give the empty list. */
  function Decode(entry: Option<StoredValue>): (r: seq<DailyAdCost>)
    ensures entry.None? ==> r == []
    ensures entry.Some? && !entry.value.CostArray? ==> r == []
    ensures entry.Some? && entry.value.CostArray? ==> r == entry.value.costs
  {
    match entry
    case Some(CostArray(costs)) => costs
    case _ => []
  }

  /** `cost.date.startsWith(yearMonth)` */
  predicate InMonth(c: DailyAdCost, yearMonth: string) {
    StartsWith(c.date, yearMonth)
  }

  /** `cost.mediaType === mediaType` */
  predicate OfType(c: DailyAdCost, mediaType: string) {
    c.mediaType == mediaType
  }

  function MonthSelector(yearMonth: string): DailyAdCost -> bool {
    c => InMonth(c, yearMonth)
  }

  function TypeSelector(mediaType: string): DailyAdCost -> bool {
    c => OfType(c, mediaType)
  }

  function MonthAndTypeSelector(yearMonth: string, mediaType: string): DailyAdCost -> bool {
    c => InMonth(c, yearMonth) && OfType(c, mediaType)
  }

  /** The filter of `getMediaAdCostsByMonth` over a loaded list. */
  function CostsOfMonth(costs: seq<DailyAdCost>, yearMonth: string): (r: seq<DailyAdCost>)
    ensures forall c :: c in r <==> c in costs && InMonth(c, yearMonth)
  {
    FilterExact(costs, MonthSelector(yearMonth))
  }

  /** The filter of `getMediaAdCostsByType` over a loaded list. */
  function CostsOfType(costs: seq<DailyAdCost>, mediaType: string): (r: seq<DailyAdCost>)
    ensures forall c :: c in r <==> c in costs && OfType(c, mediaType)
  {
    FilterExact(costs, TypeSelector(mediaType))
  }

  /** The filter of `getMediaAdCostsByMonthAndType` over a loaded list. */
  function CostsOfMonthAndType(costs: seq<DailyAdCost>, yearMonth: string, mediaType: string): (r: seq<DailyAdCost>)
    ensures forall c :: c in r <==> c in costs && InMonth(c, yearMonth) && OfType(c, mediaType)
  {
    FilterExact(costs, MonthAndTypeSelector(yearMonth, mediaType))
  }

  /** `Filter` with both directions of membership stated. */
  function FilterExact(costs: seq<DailyAdCost>, p: DailyAdCost -> bool): (r: seq<DailyAdCost>)
    ensures r == Filter(costs, p)
    ensures forall c :: c in r <==> c in costs && p(c)
  {
    forall c | c in costs && p(c) {
      FilterKeeps(costs, p, c);
    }
    Filter(costs, p)
  }

  /** Selecting by month and by channel is selecting the month's records of that channel. */
  lemma MonthAndTypeIsBoth(costs: seq<DailyAdCost>, yearMonth: string, mediaType: string)
    ensures CostsOfMonthAndType(costs, yearMonth, mediaType) == CostsOfType(CostsOfMonth(costs, yearMonth), mediaType)
  {
    FilterFilter(costs, MonthSelector(yearMonth), TypeSelector(mediaType), MonthAndTypeSelector(yearMonth, mediaType));
  }

  /** The stored entry, and whether the browser refuses to write (quota exceeded): `setItem`
    * then throws, the error is logged, and the entry stays as it was. */
  class MediaAdStore {
    var entry: Option<StoredValue>
    var quotaExceeded: bool

    constructor (initial: Option<StoredValue>, full: bool)
      ensures entry == initial && quotaExceeded == full
    {
      entry := initial;
      quotaExceeded := full;
    }

    /** `loadMediaAdCosts()` */
    function Loaded(): seq<DailyAdCost>
      reads this
    {
      Decode(entry)
    }

    method Load() returns (costs: seq<DailyAdCost>)
      ensures costs == Loaded()
    {
      costs := Decode(entry);
    }

    /** `saveMediaAdCosts(costs)`: a later load returns exactly `costs` unless the write failed. */
    method Save(costs: seq<DailyAdCost>)
      modifies this
      ensures quotaExceeded == old(quotaExceeded)
      ensures entry == if quotaExceeded then old(entry) else Some(CostArray(costs))
      ensures !quotaExceeded ==> Loaded() == costs
    {
      if !quotaExceeded {
        entry := Some(CostArray(costs));
      }
    }

    /** `removeMediaAdCost(id)`: keeps, in order, the records whose id differs. */
    method Remove(id: string)
      modifies this
      ensures quotaExceeded == old(quotaExceeded)
      ensures !quotaExceeded ==> Loaded() == Filter(old(Loaded()), (c: DailyAdCost) => c.id != id)
      ensures quotaExceeded ==> entry == old(entry)
    {
      var costs := Load();
      var filtered := Filter(costs, (c: DailyAdCost) => c.id != id);
      Save(filtered);
    }

    /** `getMediaAdCostsByMonth(yearMonth)` */
    method ByMonth(yearMonth: string) returns (r: seq<DailyAdCost>)
      ensures r == CostsOfMonth(Loaded(), yearMonth)
    {
      var costs := Load();
      r := CostsOfMonth(costs, yearMonth);
    }

    /** `getMediaAdCostsByType(mediaType)` */
    method ByType(mediaType: string) returns (r: seq<DailyAdCost>)
      ensures r == CostsOfType(Loaded(), mediaType)
    {
      var costs := Load();
      r := CostsOfType(costs, mediaType);
    }

    /** `getMediaAdCostsByMonthAndType(yearMonth, mediaType)` */
    method ByMonthAndType(yearMonth: string, mediaType: string) returns (r: seq<DailyAdCost>)
      ensures r == CostsOfMonthAndType(Loaded(), yearMonth, mediaType)
    {
      var costs := Load();
      r := CostsOfMonthAndType(costs, yearMonth, mediaType);
    }
  }

  /** Removing by id never keeps a record with that id and keeps every other one. */
  lemma RemoveKeepsOthers(costs: seq<DailyAdCost>, id: string)
    ensures forall c :: c in Filter(costs, (c: DailyAdCost) => c.id != id) <==> c in costs && c.id != id
  {
    forall c | c in costs && c.id != id {
      FilterKeeps(costs, (c: DailyAdCost) => c.id != id, c);
    }
  }
}
