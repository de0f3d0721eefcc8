/**
 * `Array.prototype.sort` with a comparator, as the utilities use it: a stable sort.
 * A comparator `(a, b) => …` is modelled by `le(a, b)`, "a may stay before b"; the result of a
 * stable sort is unique, so a stable insertion sort stands for the engine's algorithm.
 */
module Sorting {
  import opened JsText

  ghost predicate IsTotalPreorder<T(!new)>(le: (T, T) -> bool) {
    (forall a: T, b: T :: le(a, b) || le(b, a)) &&
    (forall a: T, b: T, c: T :: le(a, b) && le(b, c) ==> le(a, c))
  }

  ghost predicate SortedBy<T>(s: seq<T>, le: (T, T) -> bool) {
    forall i, j :: 0 <= i < j < |s| ==> le(s[i], s[j])
  }

  /** Inserts `x` after the last element that may stay before it. */
  function Insert<T>(s: seq<T>, x: T, le: (T, T) -> bool): (r: seq<T>)
    ensures |r| == |s| + 1
    ensures multiset(r) == multiset(s) + multiset{x}
    decreases |s|
  {
    if s == [] then [x]
    else if le(s[|s| - 1], x) then s + [x]
    else
      assert s == s[..|s| - 1] + [s[|s| - 1]];
      Insert(s[..|s| - 1], x, le) + [s[|s| - 1]]
  }

  lemma {:induction false} InsertSorted<T(!new)>(s: seq<T>, x: T, le: (T, T) -> bool)
    requires IsTotalPreorder(le) && SortedBy(s, le)
    ensures SortedBy(Insert(s, x, le), le)
    decreases |s|
  {
    if s != [] && !le(s[|s| - 1], x) {
      var init := s[..|s| - 1];
      assert SortedBy(init, le);
      InsertSorted(init, x, le);
      var r := Insert(init, x, le);
      var last := s[|s| - 1];
      assert le(x, last);
      forall k | 0 <= k < |r|
        ensures le(r[k], last)
      {
        assert r[k] in multiset(init) + multiset{x};
        if r[k] != x {
          assert r[k] in init;
          var m :| 0 <= m < |init| && init[m] == r[k];
          assert s[m] == r[k];
        }
      }
    }
  }

  function InsertionSort<T>(s: seq<T>, le: (T, T) -> bool): (r: seq<T>)
    ensures |r| == |s|
    ensures multiset(r) == multiset(s)
    decreases |s|
  {
    if s == [] then []
    else
      assert s == s[..|s| - 1] + [s[|s| - 1]];
      Insert(InsertionSort(s[..|s| - 1], le), s[|s| - 1], le)
  }

  /** The sort returns an ordered permutation of its input. */
  lemma {:induction false} InsertionSortSorted<T(!new)>(s: seq<T>, le: (T, T) -> bool)
    requires IsTotalPreorder(le)
    ensures SortedBy(InsertionSort(s, le), le)
    decreases |s|
  {
    if s != [] {
      InsertionSortSorted(s[..|s| - 1], le);
      InsertSorted(InsertionSort(s[..|s| - 1], le), s[|s| - 1], le);
    }
  }

  /** `Insert` places `x` at some position `k`: the elements before it and after it are those of
    * `s`, in order, and none of those after it may stay before `x`. */
  lemma {:induction false} InsertShape<T>(s: seq<T>, x: T, le: (T, T) -> bool) returns (k: nat)
    ensures k <= |s| && Insert(s, x, le)[k] == x
    ensures forall m :: 0 <= m < k ==> Insert(s, x, le)[m] == s[m]
    ensures forall m :: k < m <= |s| ==> Insert(s, x, le)[m] == s[m - 1]
    ensures forall m :: k <= m < |s| ==> !le(s[m], x)
    decreases |s|
  {
    if s == [] {
      k := 0;
    } else if le(s[|s| - 1], x) {
      k := |s|;
    } else {
      var init, last := s[..|s| - 1], s[|s| - 1];
      k := InsertShape(init, x, le);
      var r, ri := Insert(s, x, le), Insert(init, x, le);
      assert r == ri + [last];
      forall m | 0 <= m < k
        ensures r[m] == s[m]
      {
        assert r[m] == ri[m] == init[m];
      }
      forall m | k < m <= |s|
        ensures r[m] == s[m - 1]
      {
        if m < |s| {
          assert r[m] == ri[m] == init[m - 1];
        }
      }
      forall m | k <= m < |s|
        ensures !le(s[m], x)
      {
        if m < |init| {
          assert s[m] == init[m];
        }
      }
    }
  }

  /** `a` stands somewhere before `b` in `s`. */
  ghost predicate Precedes<T>(s: seq<T>, a: T, b: T) {
    exists p, q :: 0 <= p < q < |s| && s[p] == a && s[q] == b
  }

  /** An element of the prefix keeps its place relative to the other elements once `x` is
    * inserted; `x` itself follows every element of `s` in the input. */
  lemma PrecedesAfterInsert<T>(s: seq<T>, t: seq<T>, k: nat, r: seq<T>, i: nat, j: nat)
    requires |s| > 0 && multiset(t) == multiset(s[..|s| - 1])
    requires k <= |t| && |r| == |t| + 1 && r[k] == s[|s| - 1]
    requires forall m :: 0 <= m < k ==> r[m] == t[m]
    requires forall m :: k < m < |r| ==> r[m] == t[m - 1]
    requires i < j < |r| && i != k
    requires j != k ==> Precedes(s[..|s| - 1], t[if i < k then i else i - 1], t[if j < k then j else j - 1])
    ensures Precedes(s, r[i], r[j])
  {
    var init := s[..|s| - 1];
    var pi := if i < k then i else i - 1;
    assert r[i] == t[pi];
    if j == k {
      assert t[pi] in multiset(init);
      var p :| 0 <= p < |init| && init[p] == t[pi];
      assert s[p] == r[i] && s[|s| - 1] == r[j];
    } else {
      var pj := if j < k then j else j - 1;
      assert r[j] == t[pj];
      var p, q :| 0 <= p < q < |init| && init[p] == t[pi] && init[q] == t[pj];
      assert s[p] == init[p] && s[q] == init[q];
    }
  }

  /** The sort is stable: when a later element of the result may stand before an earlier one
    * (a tie), the earlier one came first in the input too. */
  lemma {:induction false} InsertionSortStable<T>(s: seq<T>, le: (T, T) -> bool)
    ensures forall i, j {:trigger InsertionSort(s, le)[i], InsertionSort(s, le)[j]} ::
      0 <= i < j < |InsertionSort(s, le)| && le(InsertionSort(s, le)[j], InsertionSort(s, le)[i]) ==>
      Precedes(s, InsertionSort(s, le)[i], InsertionSort(s, le)[j])
    decreases |s|
  {
    if s != [] {
      var init, x := s[..|s| - 1], s[|s| - 1];
      var t := InsertionSort(init, le);
      InsertionSortStable(init, le);
      var k := InsertShape(t, x, le);
      var r := InsertionSort(s, le);
      assert r == Insert(t, x, le);
      forall i, j | 0 <= i < j < |r| && le(r[j], r[i])
        ensures Precedes(s, r[i], r[j])
      {
        if i == k {
          assert false;
        }
        var pi := if i < k then i else i - 1;
        var pj := if j < k then j else j - 1;
        if j != k {
          assert t[pi] == r[i] && t[pj] == r[j];
        }
        PrecedesAfterInsert(s, t, k, r, i, j);
      }
    }
  }

  /** `s.map(f)` */
  function MapSeq<A, B>(s: seq<A>, f: A -> B): (r: seq<B>)
    ensures |r| == |s| && forall i :: 0 <= i < |s| ==> r[i] == f(s[i])
  {
    seq(|s|, i requires 0 <= i < |s| => f(s[i]))
  }

  /** Mapping and then sorting by a comparator that only looks at what the map keeps is sorting
    * and then mapping. */
  lemma {:induction false} InsertMap<A, B>(s: seq<A>, x: A, le: (A, A) -> bool, f: A -> B, leB: (B, B) -> bool)
    requires forall a, b :: leB(f(a), f(b)) == le(a, b)
    ensures Insert(MapSeq(s, f), f(x), leB) == MapSeq(Insert(s, x, le), f)
    decreases |s|
  {
    var ms := MapSeq(s, f);
    if s == [] {
      assert MapSeq([x], f) == [f(x)];
    } else if le(s[|s| - 1], x) {
      assert leB(ms[|s| - 1], f(x));
      assert MapSeq(s + [x], f) == ms + [f(x)];
    } else {
      var init, last := s[..|s| - 1], s[|s| - 1];
      assert !leB(ms[|s| - 1], f(x));
      assert ms[..|s| - 1] == MapSeq(init, f);
      InsertMap(init, x, le, f, leB);
      assert MapSeq(Insert(init, x, le) + [last], f) == MapSeq(Insert(init, x, le), f) + [f(last)];
    }
  }

  lemma {:induction false} InsertionSortMap<A, B>(s: seq<A>, le: (A, A) -> bool, f: A -> B, leB: (B, B) -> bool)
    requires forall a, b :: leB(f(a), f(b)) == le(a, b)
    ensures InsertionSort(MapSeq(s, f), leB) == MapSeq(InsertionSort(s, le), f)
    decreases |s|
  {
    if s != [] {
      assert MapSeq(s, f)[..|s| - 1] == MapSeq(s[..|s| - 1], f);
      InsertionSortMap(s[..|s| - 1], le, f, leB);
      InsertMap(InsertionSort(s[..|s| - 1], le), s[|s| - 1], le, f, leB);
    }
  }

  /** Sorting a list that is already in order leaves it as it is. */
  lemma {:induction false} InsertionSortOfSorted<T>(s: seq<T>, le: (T, T) -> bool)
    requires SortedBy(s, le)
    ensures InsertionSort(s, le) == s
    decreases |s|
  {
    if s != [] {
      var init, x := s[..|s| - 1], s[|s| - 1];
      assert SortedBy(init, le) by {
        forall i, j | 0 <= i < j < |init|
          ensures le(init[i], init[j])
        {
          assert init[i] == s[i] && init[j] == s[j];
        }
      }
      InsertionSortOfSorted(init, le);
      assert InsertionSort(s, le) == Insert(init, x, le);
      if init != [] {
        assert le(s[|s| - 2], x);
      }
      assert init + [x] == s;
    }
  }

  /** Two elements of which the first may not stay before the second are swapped. */
  lemma SortPair<T>(a: T, b: T, le: (T, T) -> bool)
    requires !le(a, b)
    ensures InsertionSort([a, b], le) == [b, a]
  {
    var s := [a, b];
    assert s[..1] == [a] && [a][..0] == [];
    assert InsertionSort([a], le) == [a];
    assert Insert([a], b, le) == Insert([], b, le) + [a];
  }

  /** The comparator `(a, b) => a - b` on integers. */
  const IntAscending: (int, int) -> bool := (a: int, b: int) => a <= b

  /** The comparator `(a, b) => a - b` on numbers read as reals. */
  const RealAscending: (real, real) -> bool := (a: real, b: real) => a <= b

  lemma IntAscendingIsTotal()
    ensures IsTotalPreorder(IntAscending)
  {
  }

  lemma RealAscendingIsTotal()
    ensures IsTotalPreorder(RealAscending)
  {
  }

  /** Integers sorted ascending, as `[...xs].sort((a, b) => a - b)` returns them. */
  function SortInts(xs: seq<int>): (r: seq<int>)
    ensures |r| == |xs| && multiset(r) == multiset(xs)
    ensures forall i, j :: 0 <= i < j < |r| ==> r[i] <= r[j]
  {
    IntAscendingIsTotal();
    InsertionSortSorted(xs, IntAscending);
    InsertionSort(xs, IntAscending)
  }

  /** Reals sorted ascending, as `[...xs].sort((a, b) => a - b)` returns them. */
  function SortReals(xs: seq<real>): (r: seq<real>)
    ensures |r| == |xs| && multiset(r) == multiset(xs)
    ensures forall i, j :: 0 <= i < j < |r| ==> r[i] <= r[j]
  {
    RealAscendingIsTotal();
    InsertionSortSorted(xs, RealAscending);
    InsertionSort(xs, RealAscending)
  }

  /** `Math.min(...xs)` for a non-empty list. */
  function Min(xs: seq<int>): (m: int)
    requires xs != []
    ensures m in xs && forall i :: 0 <= i < |xs| ==> m <= xs[i]
    decreases |xs|
  {
    if |xs| == 1 then xs[0]
    else
      var rest := Min(xs[1..]);
      assert forall i :: 1 <= i < |xs| ==> xs[i] == xs[1..][i - 1];
      if xs[0] <= rest then xs[0] else rest
  }

  /** `Math.max(...xs)` for a non-empty list. */
  function Max(xs: seq<int>): (m: int)
    requires xs != []
    ensures m in xs && forall i :: 0 <= i < |xs| ==> xs[i] <= m
    decreases |xs|
  {
    if |xs| == 1 then xs[0]
    else
      var rest := Max(xs[1..]);
      assert forall i :: 1 <= i < |xs| ==> xs[i] == xs[1..][i - 1];
      if xs[0] >= rest then xs[0] else rest
  }

  function Sum(xs: seq<int>): int
    decreases |xs|
  {
    if xs == [] then 0 else Sum(xs[..|xs| - 1]) + xs[|xs| - 1]
  }

  function SumReals(xs: seq<real>): real
    decreases |xs|
  {
    if xs == [] then 0.0 else SumReals(xs[..|xs| - 1]) + xs[|xs| - 1]
  }

  lemma {:induction false} SumAppend(a: seq<int>, b: seq<int>)
    ensures Sum(a + b) == Sum(a) + Sum(b)
    decreases |b|
  {
    if b == [] {
      assert a + b == a;
    } else {
      assert (a + b)[..|a + b| - 1] == a + b[..|b| - 1];
      SumAppend(a, b[..|b| - 1]);
    }
  }

  /** The element in the middle of an ascending permutation lies between the minimum and the maximum. */
  lemma MiddleBetweenMinAndMax(xs: seq<int>, k: nat)
    requires k < |xs|
    ensures Min(xs) <= SortInts(xs)[k] <= Max(xs)
    ensures SortInts(xs)[k] in xs
  {
    var s := SortInts(xs);
    assert s[k] in multiset(s);
  }
  /** The ends of an ascending permutation are the minimum and the maximum. */
  lemma SortIntsEnds(xs: seq<int>)
    requires xs != []
    ensures SortInts(xs)[0] == Min(xs) && SortInts(xs)[|xs| - 1] == Max(xs)
  {
    SortIntsFirst(xs);
    SortIntsLast(xs);
  }

  lemma SortIntsFirst(xs: seq<int>)
    requires xs != []
    ensures SortInts(xs)[0] == Min(xs)
  {
    var s := SortInts(xs);
    var m := Min(xs);
    assert m in multiset(s);
    var i :| 0 <= i < |s| && s[i] == m;
    assert s[0] in multiset(xs);
    var a :| 0 <= a < |xs| && xs[a] == s[0];
    assert m <= xs[a];
    assert s[0] <= s[i];
  }

  lemma SortIntsLast(xs: seq<int>)
    requires xs != []
    ensures SortInts(xs)[|xs| - 1] == Max(xs)
  {
    var s := SortInts(xs);
    var m := Max(xs);
    assert m in multiset(s);
    var i :| 0 <= i < |s| && s[i] == m;
    assert s[|s| - 1] in multiset(xs);
    var a :| 0 <= a < |xs| && xs[a] == s[|s| - 1];
    assert xs[a] <= m;
    assert s[i] <= s[|s| - 1];
  }

  /** The ends of an ascending permutation of reals are values of the list that bound all of it. */
  lemma SortRealsEnds(xs: seq<real>)
    requires xs != []
    ensures SortReals(xs)[0] in xs && SortReals(xs)[|xs| - 1] in xs
    ensures forall i :: 0 <= i < |xs| ==> SortReals(xs)[0] <= xs[i] <= SortReals(xs)[|xs| - 1]
  {
    var s := SortReals(xs);
    assert s[0] in multiset(xs) && s[|s| - 1] in multiset(xs);
    forall i | 0 <= i < |xs|
      ensures s[0] <= xs[i] <= s[|s| - 1]
    {
      assert xs[i] in multiset(s);
      var k :| 0 <= k < |s| && s[k] == xs[i];
      assert s[0] <= s[k] <= s[|s| - 1];
    }
  }

  /** The default `Array.prototype.sort()` order on strings. */
  const StrAscending: (string, string) -> bool := (a: string, b: string) => StrLe(a, b)

  lemma StrAscendingIsTotal()
    ensures IsTotalPreorder(StrAscending)
  {
    forall a: string, b: string
      ensures StrAscending(a, b) || StrAscending(b, a)
    {
      StrLtTotal(a, b);
    }
    forall a: string, b: string, c: string | StrAscending(a, b) && StrAscending(b, c)
      ensures StrAscending(a, c)
    {
      if StrLt(a, b) && StrLt(b, c) {
        StrLtTransitive(a, b, c);
      }
    }
  }

  /** `[...xs].sort()` on strings: an ascending permutation. */
  function SortStrings(xs: seq<string>): (r: seq<string>)
    ensures |r| == |xs| && multiset(r) == multiset(xs)
    ensures forall i, j :: 0 <= i < j < |r| ==> StrLe(r[i], r[j])
  {
    StrAscendingIsTotal();
    InsertionSortSorted(xs, StrAscending);
    InsertionSort(xs, StrAscending)
  }

  /** The first and last elements of a sorted list bound every element. */
  lemma SortStringsEnds(xs: seq<string>, x: string)
    requires x in xs
    ensures StrLe(SortStrings(xs)[0], x) && StrLe(x, SortStrings(xs)[|xs| - 1])
  {
    var s := SortStrings(xs);
    assert x in multiset(s);
    var k :| 0 <= k < |s| && s[k] == x;
    if k > 0 {
      assert StrLe(s[0], s[k]);
    }
    if k < |s| - 1 {
      assert StrLe(s[k], s[|s| - 1]);
    }
  }
}
