/**
 * The campaign cost records (`AdCost`) kept in the browser's `localStorage` under the key
 * `csv-stats-viewer-ad-costs`, inside an envelope that carries a format version.
 */
module AdCostStorage {
  import opened Wrappers
  import opened Seqs
  import opened Sorting

  const StorageKey: string := "csv-stats-viewer-ad-costs"
  const StorageVersion: string := "1.0"

  /** `AdCost`: a campaign with its first and last day (timestamps of valid dates) and its cost. */
  datatype AdCost = AdCost(id: string, startDate: int, endDate: int, cost: real, description: Option<string>)

  /** An `AdCost` as `JSON.stringify` writes it, with both dates as ISO text. */
  datatype StoredAdCost = StoredAdCost(id: string, startText: string, endText: string, cost: real, description: Option<string>)

  /** What `JSON.parse` makes of the stored text: the `StorageData` envelope, or a text on which
    * `JSON.parse` throws, or one without an `adCosts` array, on which `adCosts.map` throws.
    * (`new Date` itself never throws.) */
  datatype StoredValue = Envelope(version: string, adCosts: seq<StoredAdCost>, savedAt: string) | Unreadable

  /** `toISOString()` and `new Date(text).getTime()`. */
  datatype DateCodec = DateCodec(toIso: int -> string, fromIso: string -> int)

  /** Every valid date survives being written as ISO text and read back. */
  ghost predicate RoundTrips(codec: DateCodec) {
    forall t :: codec.fromIso(codec.toIso(t)) == t
  }

  function Encode(codec: DateCodec, c: AdCost): StoredAdCost {
    StoredAdCost(c.id, codec.toIso(c.startDate), codec.toIso(c.endDate), c.cost, c.description)
  }

  function Decode(codec: DateCodec, s: StoredAdCost): AdCost {
    AdCost(s.id, codec.fromIso(s.startText), codec.fromIso(s.endText), s.cost, s.description)
  }

  function EncodeAll(codec: DateCodec): AdCost -> StoredAdCost {
    c => Encode(codec, c)
  }

  function DecodeAll(codec: DateCodec): StoredAdCost -> AdCost {
    s => Decode(codec, s)
  }

  /** The envelope `saveAdCosts` writes at time `savedAt`. */
  function Envelop(codec: DateCodec, costs: seq<AdCost>, savedAt: string): (r: StoredValue)
    ensures r.Envelope? && r.version == StorageVersion && |r.adCosts| == |costs|
  {
    Envelope(StorageVersion, MapSeq(costs, EncodeAll(codec)), savedAt)
  }

  /** `loadAdCosts` on a given stored entry: nothing stored, an unreadable value or another
    * version give the empty list; otherwise every record with its dates read back. */
  function Unwrap(codec: DateCodec, entry: Option<StoredValue>): seq<AdCost> {
    match entry
    case Some(Envelope(version, stored, _)) =>
      if version == StorageVersion then MapSeq(stored, DecodeAll(codec)) else []
    case _ => []
  }

  /** Loading finds nothing when the key is absent, unreadable or of another version. */
  lemma UnwrapEmpty(codec: DateCodec, entry: Option<StoredValue>)
    ensures entry.None? ==> Unwrap(codec, entry) == []
    ensures entry.Some? && entry.value.Envelope? && entry.value.version != StorageVersion ==> Unwrap(codec, entry) == []
    ensures entry == Some(Unreadable) ==> Unwrap(codec, entry) == []
    ensures |Unwrap(codec, entry)| > 0 ==> entry.Some? && entry.value.Envelope? && entry.value.version == StorageVersion
  {
  }

  /** Reading back what was saved gives the same records, field by field. */
  lemma LoadAfterSave(codec: DateCodec, costs: seq<AdCost>, savedAt: string)
    requires RoundTrips(codec)
    ensures Unwrap(codec, Some(Envelop(codec, costs, savedAt))) == costs
  {
    var stored := MapSeq(costs, EncodeAll(codec));
    var loaded := MapSeq(stored, DecodeAll(codec));
    forall i | 0 <= i < |costs|
      ensures loaded[i] == costs[i]
    {
      assert stored[i] == Encode(codec, costs[i]);
    }
  }

  /** `cost => cost.id !== id` */
  function IdDiffers(id: string): AdCost -> bool {
    (c: AdCost) => c.id != id
  }

  /** The filter of `removeAdCost` keeps exactly the records with another id, in order. */
  lemma RemoveKeepsOthers(costs: seq<AdCost>, id: string)
    ensures var r := Filter(costs, IdDiffers(id));
      IsSubsequence(r, costs) && forall c :: c in r <==> c in costs && c.id != id
  {
    FilterIsSubsequence(costs, IdDiffers(id));
    forall c: AdCost | c in costs && c.id != id {
      FilterKeeps(costs, IdDiffers(id), c);
    }
  }

  /** The stored entry, the date conversion of the engine, and whether the browser refuses to
    * write (quota exceeded): `setItem` then throws, the save reports `false`, and the entry
    * stays as it was. */
  class AdCostStore {
    var entry: Option<StoredValue>
    var quotaExceeded: bool
    const codec: DateCodec

    constructor (initial: Option<StoredValue>, full: bool, dates: DateCodec)
      ensures entry == initial && quotaExceeded == full && codec == dates
    {
      entry := initial;
      quotaExceeded := full;
      codec := dates;
    }

    /** `loadAdCosts()` */
    function Loaded(): seq<AdCost>
      reads this
    {
      Unwrap(codec, entry)
    }

    method Load() returns (costs: seq<AdCost>)
      ensures costs == Loaded()
    {
      costs := Unwrap(codec, entry);
    }

    /** `saveAdCosts(costs)` at the instant whose ISO text is `now`. */
    method Save(costs: seq<AdCost>, now: string) returns (ok: bool)
      modifies this
      ensures ok == !quotaExceeded && quotaExceeded == old(quotaExceeded)
      ensures entry == if ok then Some(Envelop(codec, costs, now)) else old(entry)
      ensures ok && RoundTrips(codec) ==> Loaded() == costs
    {
      ok := !quotaExceeded;
      if ok {
        entry := Some(Envelop(codec, costs, now));
        if RoundTrips(codec) {
          LoadAfterSave(codec, costs, now);
        }
      }
    }

    /** `addAdCost(newCost)`: the loaded records, then the new one. */
    method Add(newCost: AdCost, now: string) returns (ok: bool)
      modifies this
      ensures ok == !quotaExceeded && quotaExceeded == old(quotaExceeded)
      ensures entry == if ok then Some(Envelop(codec, old(Loaded()) + [newCost], now)) else old(entry)
      ensures ok && RoundTrips(codec) ==> Loaded() == old(Loaded()) + [newCost]
    {
      var costs := Load();
      costs := costs + [newCost];
      ok := Save(costs, now);
    }

    /** `removeAdCost(id)`: the loaded records whose id differs, in order. */
    method Remove(id: string, now: string) returns (ok: bool)
      modifies this
      ensures ok == !quotaExceeded && quotaExceeded == old(quotaExceeded)
      ensures entry == if ok then Some(Envelop(codec, Filter(old(Loaded()), IdDiffers(id)), now)) else old(entry)
      ensures ok && RoundTrips(codec) ==> Loaded() == Filter(old(Loaded()), IdDiffers(id))
    {
      var costs := Load();
      var filtered := Filter(costs, IdDiffers(id));
      ok := Save(filtered, now);
    }

    /** `clearAdCosts()`: removes the entry, after which nothing loads. */
    method Clear() returns (ok: bool)
      modifies this
      ensures ok && entry.None? && Loaded() == []
      ensures quotaExceeded == old(quotaExceeded)
    {
      entry := None;
      ok := true;
    }
  }
}
