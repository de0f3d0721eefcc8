/**
 * Counting occurrences in a JavaScript `Map`: `map.set(key, (map.get(key) || 0) + 1)` for every
 * element in list order, then `Array.from(map.entries())`, optionally sorted by descending count.
 */
module Tally {
  import opened Wrappers
  import opened Seqs
  import opened Sorting
  import opened JsText

  /** "The element is `k`." */
  function Is<K(==)>(k: K): K -> bool {
    x => x == k
  }

  /** How often `k` occurs in `s`. */
  function Occurrences<K(==)>(s: seq<K>, k: K): nat {
    Count(s, Is(k))
  }

  /** The loop that fills the map: the keys in the order they were first set, and each key's
    * number of occurrences. */
  method CountByKey<K(==, !new)>(s: seq<K>) returns (keys: seq<K>, counts: map<K, nat>)
    ensures keys == Distinct(s)
    ensures forall k :: k in counts <==> k in s
    ensures forall k :: k in counts ==> counts[k] == Occurrences(s, k)
  {
    keys, counts := [], map[];
    for i := 0 to |s|
      invariant keys == Distinct(s[..i])
      invariant forall k :: k in counts <==> k in s[..i]
      invariant forall k :: k in counts ==> counts[k] == Count(s[..i], Is(k))
    {
      var key := s[i];
      ghost var prefix := s[..i + 1];
      assert prefix[..i] == s[..i] && prefix[i] == key;
      var next := if key in counts then counts[key := counts[key] + 1] else counts[key := 1];
      forall k | k in next
        ensures next[k] == Count(prefix, Is(k))
      {
        CountStep(s, i, Is(k));
        if k != key {
          assert k in counts && next[k] == counts[k];
        } else if key !in counts {
          NotOccurring(s[..i], key);
        }
      }
      if key !in counts {
        keys := keys + [key];
      }
      counts := next;
    }
    assert s[..|s|] == s;
  }

  /** `Array.from(map.entries())`: each key with its count, in key order. */
  function Entries<K(==)>(keys: seq<K>, s: seq<K>): (r: seq<(K, nat)>)
    ensures |r| == |keys|
    ensures forall i :: 0 <= i < |keys| ==> r[i] == (keys[i], Occurrences(s, keys[i]))
  {
    seq(|keys|, i requires 0 <= i < |keys| => (keys[i], Occurrences(s, keys[i])))
  }

  /** The comparator `(a, b) => b.count - a.count`. */
  function ByCountDescending<K>(): ((K, nat), (K, nat)) -> bool {
    (a: (K, nat), b: (K, nat)) => a.1 >= b.1
  }

  lemma ByCountDescendingIsTotal<K(!new)>()
    ensures IsTotalPreorder(ByCountDescending<K>())
  {
  }

  /** The entries sorted by descending count, as the stable engine sort leaves them. */
  function SortByCount<K(!new)>(entries: seq<(K, nat)>): (r: seq<(K, nat)>)
    ensures |r| == |entries| && multiset(r) == multiset(entries)
    ensures forall i, j :: 0 <= i < j < |r| ==> r[i].1 >= r[j].1
  {
    ByCountDescendingIsTotal<K>();
    InsertionSortSorted(entries, ByCountDescending<K>());
    InsertionSort(entries, ByCountDescending<K>())
  }

  /** The sum of the counts of a list of entries. */
  function TotalCount<K>(entries: seq<(K, nat)>): nat
    decreases |entries|
  {
    if entries == [] then 0 else TotalCount(entries[..|entries| - 1]) + entries[|entries| - 1].1
  }

  lemma {:induction false} TotalCountAppend<K>(a: seq<(K, nat)>, b: seq<(K, nat)>)
    ensures TotalCount(a + b) == TotalCount(a) + TotalCount(b)
    decreases |b|
  {
    if b == [] {
      assert a + b == a;
    } else {
      assert (a + b)[..|a + b| - 1] == a + b[..|b| - 1];
      assert (a + b)[|a + b| - 1] == b[|b| - 1];
      TotalCountAppend(a, b[..|b| - 1]);
    }
  }

  /** Reordering entries does not change their total. */
  lemma {:induction false} TotalCountPermutation<K>(a: seq<(K, nat)>, b: seq<(K, nat)>)
    requires multiset(a) == multiset(b)
    ensures TotalCount(a) == TotalCount(b)
    decreases |a|
  {
    if a != [] {
      var x := a[|a| - 1];
      assert x in multiset(b);
      var k :| 0 <= k < |b| && b[k] == x;
      var a0, b0 := a[..|a| - 1], b[..k] + b[k + 1..];
      assert multiset(a0) == multiset(b0) by {
        RemoveAt(a, |a| - 1);
        RemoveAt(b, k);
        assert a[..|a| - 1] + a[|a|..] == a0;
      }
      TotalCountPermutation(a0, b0);
      TotalCountRemove(b, k);
    }
  }

  lemma RemoveAt<T>(s: seq<T>, k: nat)
    requires k < |s|
    ensures multiset(s[..k] + s[k + 1..]) == multiset(s) - multiset{s[k]}
  {
    assert s == s[..k] + [s[k]] + s[k + 1..];
  }

  lemma TotalCountRemove<K>(s: seq<(K, nat)>, k: nat)
    requires k < |s|
    ensures TotalCount(s) == TotalCount(s[..k] + s[k + 1..]) + s[k].1
  {
    var left, right := s[..k], s[k + 1..];
    assert s == left + ([s[k]] + right) by {
      assert s[k..] == [s[k]] + right;
      assert s == left + s[k..];
    }
    TotalCountRemoveMiddle(s, left, s[k], right);
  }

  lemma TotalCountRemoveMiddle<K>(s: seq<(K, nat)>, left: seq<(K, nat)>, x: (K, nat), right: seq<(K, nat)>)
    requires s == left + ([x] + right)
    ensures TotalCount(s) == TotalCount(left + right) + x.1
  {
    assert s == (left + [x]) + right;
    TotalCountAppend(left + [x], right);
    TotalCountAppend(left, [x]);
    TotalCountAppend(left, right);
    assert TotalCount([x]) == TotalCount([x][..0]) + x.1;
  }

  /** No prefix of a list of entries counts more than the whole list. */
  lemma TotalCountPrefix<K>(entries: seq<(K, nat)>, n: nat)
    requires n <= |entries|
    ensures TotalCount(entries[..n]) <= TotalCount(entries)
  {
    assert entries == entries[..n] + entries[n..];
    TotalCountAppend(entries[..n], entries[n..]);
  }

  /** The counts of the distinct elements of `ks` add up to the elements of `s` among them. */
  lemma {:induction false} EntriesTotal<K(!new)>(ks: seq<K>, s: seq<K>)
    requires forall i, j :: 0 <= i < j < |ks| ==> ks[i] != ks[j]
    ensures TotalCount(Entries(ks, s)) == Count(s, x => x in ks)
    decreases |ks|
  {
    var key: K -> Option<K> := x => Some(x);
    SumOfKeyCountsIsCount(s, key, ks);
    SumIsKeyCounts(ks, s);
    CountCongruent(s, KeyIn(key, ks), x => x in ks);
  }

  lemma {:induction false} SumIsKeyCounts<K(!new)>(ks: seq<K>, s: seq<K>)
    ensures TotalCount(Entries(ks, s)) == SumOfKeyCounts(s, x => Some(x), ks)
    decreases |ks|
  {
    if ks != [] {
      var init := ks[..|ks| - 1];
      SumIsKeyCounts(init, s);
      assert Entries(ks, s)[..|ks| - 1] == Entries(init, s);
      CountCongruent(s, KeyIs(x => Some(x), ks[|ks| - 1]), Is(ks[|ks| - 1]));
    }
  }

  /** The counts of the distinct elements add up to the length of the list. */
  lemma CountsAddUp<K(!new)>(s: seq<K>)
    ensures TotalCount(Entries(Distinct(s), s)) == |s|
  {
    EntriesTotal(Distinct(s), s);
    CountAll(s, x => x in Distinct(s));
  }

  lemma NotOccurring<K>(s: seq<K>, k: K)
    requires k !in s
    ensures Occurrences(s, k) == 0
  {
    CountCongruent(s, Is(k), x => false);
    CountNone(s);
  }

  /** Every element that occurs has a positive count. */
  lemma OccurringIsCounted<K>(s: seq<K>, k: K)
    requires k in s
    ensures Occurrences(s, k) >= 1
  {
    var i :| 0 <= i < |s| && s[i] == k;
    CountPositive(s, Is(k), i);
  }

  /** The entries of the map, sorted by descending count: what `calculateFrequencies` returns. */
  function CountsByValue<K(==, !new)>(s: seq<K>): (r: seq<(K, nat)>)
    ensures forall i, j :: 0 <= i < j < |r| ==> r[i].1 >= r[j].1
  {
    SortByCount(Entries(Distinct(s), s))
  }

  /** Each distinct element appears once in the sorted counts, with its number of occurrences,
    * and the counts add up to the length of the list. */
  lemma CountsByValueSpec<K(!new)>(s: seq<K>)
    ensures forall i :: 0 <= i < |CountsByValue(s)| ==>
      CountsByValue(s)[i].0 in s && CountsByValue(s)[i].1 == Occurrences(s, CountsByValue(s)[i].0)
    ensures forall x :: x in s ==> (x, Occurrences(s, x)) in CountsByValue(s)
    ensures forall i, j :: 0 <= i < j < |CountsByValue(s)| ==> CountsByValue(s)[i].0 != CountsByValue(s)[j].0
    ensures TotalCount(CountsByValue(s)) == |s|
  {
    SortedEntriesSpec(Distinct(s), s);
  }

  /** The same holds whatever order the distinct elements are listed in before sorting. */
  lemma SortedEntriesSpec<K(!new)>(keys: seq<K>, s: seq<K>)
    requires multiset(keys) == multiset(Distinct(s))
    ensures var r := SortByCount(Entries(keys, s));
      (forall i :: 0 <= i < |r| ==> r[i].0 in s && r[i].1 == Occurrences(s, r[i].0)) &&
      (forall x :: x in s ==> (x, Occurrences(s, x)) in r) &&
      (forall i, j :: 0 <= i < j < |r| ==> r[i].0 != r[j].0) &&
      TotalCount(r) == |s|
  {
    var r := SortByCount(Entries(keys, s));
    EntriesPermutation(keys, Distinct(s), s);
    PermutedEntriesCounts(r, s);
    PermutedEntriesComplete(r, s);
    PermutedEntriesDistinct(r, s);
    TotalCountPermutation(r, Entries(Distinct(s), s));
    CountsAddUp(s);
  }

  /** Listing the keys in another order lists the same entries in that order. */
  lemma {:induction false} EntriesPermutation<K>(a: seq<K>, b: seq<K>, s: seq<K>)
    requires multiset(a) == multiset(b)
    ensures multiset(Entries(a, s)) == multiset(Entries(b, s))
    decreases |a|
  {
    if a != [] {
      var x := a[|a| - 1];
      assert x in multiset(b);
      var k :| 0 <= k < |b| && b[k] == x;
      var a0, b0 := a[..|a| - 1], b[..k] + b[k + 1..];
      assert multiset(a0) == multiset(b0) by {
        RemoveAt(a, |a| - 1);
        RemoveAt(b, k);
        assert a[..|a| - 1] + a[|a|..] == a0;
      }
      EntriesPermutation(a0, b0, s);
      EntriesRemoveAt(a, |a| - 1, s);
      EntriesRemoveAt(b, k, s);
      assert a[..|a| - 1] + a[|a|..] == a0;
    }
  }

  /** The entries of a key list are those without its `k`-th key plus that key's entry. */
  lemma EntriesRemoveAt<K>(b: seq<K>, k: nat, s: seq<K>)
    requires k < |b|
    ensures multiset(Entries(b, s)) == multiset(Entries(b[..k] + b[k + 1..], s)) + multiset(Entries([b[k]], s))
  {
    var left, right := b[..k], b[k + 1..];
    assert b == left + [b[k]] + right;
    EntriesAppend(left + [b[k]], right, s);
    EntriesAppend(left, [b[k]], s);
    EntriesAppend(left, right, s);
  }

  lemma EntriesAppend<K>(a: seq<K>, b: seq<K>, s: seq<K>)
    ensures Entries(a + b, s) == Entries(a, s) + Entries(b, s)
  {
  }

  lemma PermutedEntriesCounts<K(!new)>(r: seq<(K, nat)>, s: seq<K>)
    requires multiset(r) == multiset(Entries(Distinct(s), s))
    ensures forall i :: 0 <= i < |r| ==> r[i].0 in s && r[i].1 == Occurrences(s, r[i].0)
  {
    var e := Entries(Distinct(s), s);
    forall i | 0 <= i < |r|
      ensures r[i].0 in s && r[i].1 == Occurrences(s, r[i].0)
    {
      assert r[i] in multiset(e);
    }
  }

  lemma PermutedEntriesComplete<K(!new)>(r: seq<(K, nat)>, s: seq<K>)
    requires multiset(r) == multiset(Entries(Distinct(s), s))
    ensures forall x :: x in s ==> (x, Occurrences(s, x)) in r
  {
    var keys := Distinct(s);
    var e := Entries(keys, s);
    forall x | x in s
      ensures (x, Occurrences(s, x)) in r
    {
      var j :| 0 <= j < |keys| && keys[j] == x;
      assert e[j] in multiset(r);
    }
  }

  lemma PermutedEntriesDistinct<K(!new)>(r: seq<(K, nat)>, s: seq<K>)
    requires multiset(r) == multiset(Entries(Distinct(s), s))
    ensures forall i, j :: 0 <= i < j < |r| ==> r[i].0 != r[j].0
  {
    var e := Entries(Distinct(s), s);
    PermutedEntriesCounts(r, s);
    forall i, j | 0 <= i < j < |r|
      ensures r[i].0 != r[j].0
    {
      if r[i].0 == r[j].0 {
        TwoCopies(r, i, j);
        DistinctMultiplicity(e, r[i]);
        assert false;
      }
    }
  }

  lemma TwoCopies<T>(t: seq<T>, i: nat, j: nat)
    requires i < j < |t| && t[i] == t[j]
    ensures multiset(t)[t[i]] >= 2
  {
    assert t == t[..i] + [t[i]] + t[i + 1..j] + [t[j]] + t[j + 1..];
  }

  lemma {:induction false} DistinctMultiplicity<T>(t: seq<T>, x: T)
    requires forall i, j :: 0 <= i < j < |t| ==> t[i] != t[j]
    ensures multiset(t)[x] <= 1
    decreases |t|
  {
    if t != [] {
      var init := t[..|t| - 1];
      DistinctMultiplicity(init, x);
      assert t == init + [t[|t| - 1]];
      if x == t[|t| - 1] {
        assert x !in init;
      }
    }
  }

  /** A list without repetitions sorts into strictly ascending order. */
  lemma SortStringsStrict(s: seq<string>)
    requires forall i, j :: 0 <= i < j < |s| ==> s[i] != s[j]
    ensures forall i, j :: 0 <= i < j < |SortStrings(s)| ==> StrLt(SortStrings(s)[i], SortStrings(s)[j])
  {
    var sorted := SortStrings(s);
    forall i, j | 0 <= i < j < |sorted|
      ensures StrLt(sorted[i], sorted[j])
    {
      if sorted[i] == sorted[j] {
        TwoCopies(sorted, i, j);
        DistinctMultiplicity(s, sorted[i]);
        assert false;
      }
    }
  }

  // ---------------------------------------------------------------------------------------
  // Plain objects

  /** 2^32 - 1: array indices lie below it. */
  const ArrayIndexLimit: nat := 0xFFFF_FFFF

  /** A property key that is an array index: the canonical decimal text, without leading zeros,
    * of an integer below 2^32 - 1. */
  predicate IsArrayIndex(k: string) {
    k != [] && AllDigits(k) && (k[0] != '0' || |k| == 1) && DigitsValue(k) < ArrayIndexLimit
  }

  function ArrayIndexKey(): string -> bool {
    k => IsArrayIndex(k)
  }

  function OtherKey(): string -> bool {
    k => !IsArrayIndex(k)
  }

  /** The number an array-index key stands for (0 for any other key). */
  function IndexValue(k: string): nat {
    if AllDigits(k) then DigitsValue(k) else 0
  }

  function ByIndexValue(): (string, string) -> bool {
    (a: string, b: string) => IndexValue(a) <= IndexValue(b)
  }

  /** The order in which `Object.entries` lists the own keys of a plain object whose keys were
    * created in the order `keys`: the array indices in ascending numeric order, then the other
    * keys in creation order. */
  function ObjectKeyOrder(keys: seq<string>): seq<string> {
    InsertionSort(Filter(keys, ArrayIndexKey()), ByIndexValue()) + Filter(keys, OtherKey())
  }

  /** The listing holds the same keys; an array index is preceded only by array indices with no
    * larger value; and the other keys keep their creation order. */
  lemma ObjectKeyOrderSpec(keys: seq<string>)
    ensures multiset(ObjectKeyOrder(keys)) == multiset(keys)
    ensures var o := ObjectKeyOrder(keys);
      forall p, q :: 0 <= p < q < |o| && IsArrayIndex(o[q]) ==> IsArrayIndex(o[p]) && IndexValue(o[p]) <= IndexValue(o[q])
    ensures Filter(ObjectKeyOrder(keys), OtherKey()) == Filter(keys, OtherKey())
  {
    assert IsTotalPreorder(ByIndexValue());
    SortedPartSpec(keys, ArrayIndexKey(), OtherKey(), ByIndexValue());
  }

  /** Keys "2", "犬", "1" created in that order are listed as "1", "2", "犬". */
  lemma ObjectKeyOrderExample()
    ensures ObjectKeyOrder(["2", "犬", "1"]) == ["1", "2", "犬"]
  {
    assert IsArrayIndex("2") && IsArrayIndex("1") && !IsArrayIndex("犬");
    assert Filter(["2", "犬", "1"], ArrayIndexKey()) == ["2", "1"];
    assert Filter(["2", "犬", "1"], OtherKey()) == ["犬"];
    SortPair("2", "1", ByIndexValue());
  }

  /** Two array-index keys created larger value first are listed smaller value first. */
  lemma ObjectKeyOrderPair(a: string, b: string)
    requires IsArrayIndex(a) && IsArrayIndex(b) && IndexValue(b) < IndexValue(a)
    ensures ObjectKeyOrder([a, b]) == [b, a]
  {
    FilterPair(a, b, ArrayIndexKey());
    FilterPair(a, b, OtherKey());
    SortPair(a, b, ByIndexValue());
  }

  lemma ObjectKeyOrderTwo()
    ensures ObjectKeyOrder(["2", "1"]) == ["1", "2"]
  {
    assert IsArrayIndex("2") && IsArrayIndex("1") && IndexValue("1") < IndexValue("2");
    ObjectKeyOrderPair("2", "1");
  }

  lemma FilterPair<T>(a: T, b: T, p: T -> bool)
    ensures p(a) && p(b) ==> Filter([a, b], p) == [a, b]
    ensures !p(a) && !p(b) ==> Filter([a, b], p) == []
  {
    var s := [a, b];
    assert s[..1] == [a] && [a][..0] == [];
  }

  /** Two different keys are both first occurrences. */
  lemma DistinctPair<K(!new)>(a: K, b: K)
    requires a != b
    ensures Distinct([a, b]) == [a, b]
  {
    var s := [a, b];
    assert s[..1] == [a] && [a][..0] == [];
    assert Distinct([a]) == [a];
  }

  /** Two different keys, each given once. */
  lemma OnceEach<K>(a: K, b: K)
    requires a != b
    ensures Occurrences([a, b], a) == 1 && Occurrences([a, b], b) == 1
  {
    var s := [a, b];
    assert s[..1] == [a] && [a][..0] == [];
    assert Count(s[..1], Is(a)) == 1;
    assert Count(s[..1], Is(b)) == 0;
  }

  /** Sorting the elements that satisfy `p` and placing the others after them, in order. */
  lemma SortedPartSpec<T(!new)>(s: seq<T>, p: T -> bool, q: T -> bool, le: (T, T) -> bool)
    requires forall x :: q(x) == !p(x)
    requires IsTotalPreorder(le)
    ensures var o := InsertionSort(Filter(s, p), le) + Filter(s, q);
      multiset(o) == multiset(s) &&
      (forall i, j :: 0 <= i < j < |o| && p(o[j]) ==> p(o[i]) && le(o[i], o[j])) &&
      Filter(o, q) == Filter(s, q)
  {
    FiltersPartitionMultiset(s, p, q);
    SortedPartOrder(Filter(s, p), Filter(s, q), p, q, le);
  }

  lemma SortedPartOrder<T(!new)>(front: seq<T>, back: seq<T>, p: T -> bool, q: T -> bool, le: (T, T) -> bool)
    requires forall x :: q(x) == !p(x)
    requires IsTotalPreorder(le)
    requires forall x :: x in front ==> p(x)
    requires forall x :: x in back ==> q(x)
    ensures var o := InsertionSort(front, le) + back;
      (forall i, j :: 0 <= i < j < |o| && p(o[j]) ==> p(o[i]) && le(o[i], o[j])) &&
      Filter(o, q) == back
  {
    var sorted := InsertionSort(front, le);
    assert forall x :: x in sorted ==> p(x) by {
      forall x | x in sorted
        ensures p(x)
      {
        assert x in multiset(front);
      }
    }
    InsertionSortSorted(front, le);
    FrontThenBack(sorted, back, p, q, le);
  }

  lemma FrontThenBack<T>(front: seq<T>, back: seq<T>, p: T -> bool, q: T -> bool, le: (T, T) -> bool)
    requires forall x :: q(x) == !p(x)
    requires SortedBy(front, le)
    requires forall x :: x in front ==> p(x)
    requires forall x :: x in back ==> q(x)
    ensures var o := front + back;
      (forall i, j :: 0 <= i < j < |o| && p(o[j]) ==> p(o[i]) && le(o[i], o[j])) &&
      Filter(o, q) == back
  {
    var o := front + back;
    assert forall m :: |front| <= m < |o| ==> o[m] in back && !p(o[m]);
    forall i, j | 0 <= i < j < |o| && p(o[j])
      ensures p(o[i]) && le(o[i], o[j])
    {
      if j >= |front| {
        assert false;
      }
      assert o[i] in front && o[j] == front[j];
    }
    assert Filter(o, q) == back by {
      FilterAppend(front, back, q);
      FilterNone(front, q);
      FilterAll(back, q);
      assert [] + back == back;
    }
  }

  /** "The element falls in slot `k`." */
  function SlotIs<T>(slot: T -> int, k: int): T -> bool {
    x => slot(x) == k
  }

  /** How many elements fall in each slot. */
  function SlotCounts<T>(s: seq<T>, slot: T -> int, size: nat): (r: seq<nat>)
    ensures |r| == size
    ensures forall k :: 0 <= k < size ==> r[k] == Count(s, SlotIs(slot, k))
  {
    seq(size, k requires 0 <= k < size => Count(s, SlotIs(slot, k)))
  }

  /** The loops that set every slot to 0 and then count each element in its slot. */
  method CountIntoSlots<T>(s: seq<T>, slot: T -> int, size: nat) returns (counts: seq<nat>)
    requires forall i :: 0 <= i < |s| ==> 0 <= slot(s[i]) < size
    ensures counts == SlotCounts(s, slot, size)
  {
    counts := [];
    for k := 0 to size
      invariant counts == seq(k, _ => 0)
    {
      counts := counts + [0];
    }
    for i := 0 to |s|
      invariant |counts| == size
      invariant forall k :: 0 <= k < size ==> counts[k] == Count(s[..i], SlotIs(slot, k))
    {
      var k := slot(s[i]);
      forall j | 0 <= j < size
        ensures Count(s[..i + 1], SlotIs(slot, j)) == Count(s[..i], SlotIs(slot, j)) + if j == k then 1 else 0
      {
        CountStep(s, i, SlotIs(slot, j));
      }
      counts := counts[k := counts[k] + 1];
    }
    assert s[..|s|] == s;
  }

  /** Every element falls in exactly one slot, so the slot counts add up to the length of the list. */
  lemma SlotCountsTotal<T>(s: seq<T>, slot: T -> int, size: nat)
    requires forall i :: 0 <= i < |s| ==> 0 <= slot(s[i]) < size
    ensures Sum(SlotCounts(s, slot, size)) == |s|
  {
    var key: T -> Option<int> := x => Some(slot(x));
    var slots := seq(size, k requires 0 <= k < size => k);
    SlotSumIsKeyCounts(s, slot, size);
    SumOfKeyCountsIsCount(s, key, slots);
    forall x | x in s
      ensures KeyIn(key, slots)(x)
    {
      assert slots[slot(x)] == slot(x);
    }
    CountAll(s, KeyIn(key, slots));
  }

  lemma {:induction false} SlotSumIsKeyCounts<T>(s: seq<T>, slot: T -> int, size: nat)
    ensures Sum(SlotCounts(s, slot, size)) == SumOfKeyCounts(s, x => Some(slot(x)), seq(size, k requires 0 <= k < size => k))
    decreases size
  {
    if size > 0 {
      SlotSumIsKeyCounts(s, slot, size - 1);
      assert SlotCounts(s, slot, size)[..size - 1] == SlotCounts(s, slot, size - 1);
      assert seq(size, k requires 0 <= k < size => k)[..size - 1] == seq(size - 1, k requires 0 <= k < size - 1 => k);
      CountCongruent(s, KeyIs(x => Some(slot(x)), size - 1), SlotIs(slot, size - 1));
    }
  }
}
