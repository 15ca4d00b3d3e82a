/**
  The part of Python's `statistics.median` that the day score relies on:
  sort a copy of the data ascending, then take the middle element for an odd
  count, or the mean of the two middle elements for an even count. The
  result is a `real` because the even case divides by two.
 */
module Stats {

  predicate Sorted(s: seq<int>) {
    forall i, j :: 0 <= i < j < |s| ==> s[i] <= s[j]
  }

  /** Inserts `x` before the first element of `t` that is not smaller than it. */
  function Insert(x: int, t: seq<int>): seq<int> {
    if t == [] || x <= t[0] then [x] + t else [t[0]] + Insert(x, t[1..])
  }

  /** An ascending copy of `s`: the `sorted(data)` that `statistics.median` starts from. */
  function Sort(s: seq<int>): seq<int> {
    if s == [] then [] else Insert(s[0], Sort(s[1..]))
  }

  /** Inserting adds exactly `x` to the elements. */
  lemma {:induction false} InsertPermutes(x: int, t: seq<int>)
    ensures multiset(Insert(x, t)) == multiset(t) + multiset{x}
  {
    if t != [] && x > t[0] {
      InsertPermutes(x, t[1..]);
      assert t == [t[0]] + t[1..];
    }
  }

  /** Putting a least element in front of an ascending sequence keeps it ascending. */
  lemma ConsSorted(x: int, t: seq<int>)
    requires Sorted(t)
    requires forall k :: 0 <= k < |t| ==> x <= t[k]
    ensures Sorted([x] + t)
  {
  }

  /** Inserting into an ascending sequence keeps it ascending. */
  lemma {:induction false} InsertSorted(x: int, t: seq<int>)
    requires Sorted(t)
    ensures Sorted(Insert(x, t))
  {
    if t == [] || x <= t[0] {
      ConsSorted(x, t);
    } else {
      var rest := Insert(x, t[1..]);
      InsertSorted(x, t[1..]);
      InsertPermutes(x, t[1..]);
      forall k | 0 <= k < |rest| ensures t[0] <= rest[k] {
        assert rest[k] in multiset(t[1..]) + multiset{x};
        if rest[k] != x {
          assert rest[k] in t[1..];
        }
      }
      ConsSorted(t[0], rest);
    }
  }

  /** Dropping the first element takes exactly one copy of it out of the elements. */
  lemma TailMultiset(a: seq<int>)
    requires |a| > 0
    ensures multiset(a) == multiset{a[0]} + multiset(a[1..])
  {
    assert a == [a[0]] + a[1..];
  }

  /** `Sort` returns an ascending arrangement of exactly the elements it is given. */
  lemma {:induction false} SortSorted(s: seq<int>)
    ensures Sorted(Sort(s))
    ensures multiset(Sort(s)) == multiset(s)
    ensures |Sort(s)| == |s|
  {
    if s != [] {
      var t := Sort(s[1..]);
      SortSorted(s[1..]);
      InsertSorted(s[0], t);
      InsertPermutes(s[0], t);
      TailMultiset(s);
      assert Sort(s) == Insert(s[0], t);
    }
    assert |Sort(s)| == |multiset(Sort(s))|;
  }

  /** `statistics.median`; an empty sequence has no median (Python raises `StatisticsError`). */
  function Median(s: seq<int>): real
    requires |s| > 0
  {
    SortSorted(s);
    var t := Sort(s);
    var n := |t|;
    if n % 2 == 1 then t[n / 2] as real
    else (t[n / 2 - 1] + t[n / 2]) as real / 2.0
  }

  /** How many elements of `s` lie strictly below `m`. */
  function CountBelow(s: seq<int>, m: real): nat {
    if s == [] then 0 else (if (s[0] as real) < m then 1 else 0) + CountBelow(s[1..], m)
  }

  /** How many elements of `s` lie strictly above `m`. */
  function CountAbove(s: seq<int>, m: real): nat {
    if s == [] then 0 else (if (s[0] as real) > m then 1 else 0) + CountAbove(s[1..], m)
  }

  /** The first element of an ascending sequence is below every element it holds. */
  lemma HeadIsLeast(a: seq<int>, x: int)
    requires Sorted(a) && x in multiset(a)
    ensures |a| > 0 && a[0] <= x
  {
    assert x in a;
  }

  /** The tail of an ascending sequence is ascending. */
  lemma SortedTail(a: seq<int>)
    requires Sorted(a) && |a| > 0
    ensures Sorted(a[1..])
  {
  }

  /** Taking the same element away from two equal multisets leaves equal multisets. */
  lemma MultisetCancel(x: int, p: multiset<int>, q: multiset<int>)
    requires multiset{x} + p == multiset{x} + q
    ensures p == q
  {
    assert p == (multiset{x} + p) - multiset{x};
    assert q == (multiset{x} + q) - multiset{x};
  }

  /** Two ascending sequences holding the same elements are the same sequence. */
  lemma {:induction false} SortedUnique(a: seq<int>, b: seq<int>)
    requires Sorted(a) && Sorted(b)
    requires multiset(a) == multiset(b)
    ensures a == b
  {
    assert |a| == |multiset(a)| == |multiset(b)| == |b|;
    if a != [] {
      var x, ta, tb := a[0], a[1..], b[1..];
      HeadIsLeast(b, x);
      HeadIsLeast(a, b[0]);
      assert b[0] == x;
      TailMultiset(a);
      TailMultiset(b);
      MultisetCancel(x, multiset(ta), multiset(tb));
      SortedTail(a);
      SortedTail(b);
      SortedUnique(ta, tb);
      assert a == [x] + ta;
      assert b == [x] + tb;
    }
  }

  /** The median can be read off any ascending arrangement of the data. */
  lemma MedianFromSorted(s: seq<int>, t: seq<int>)
    requires |s| > 0 && Sorted(t) && multiset(s) == multiset(t)
    ensures |t| == |s|
    ensures Median(s) == if |t| % 2 == 1 then t[|t| / 2] as real
                         else (t[|t| / 2 - 1] + t[|t| / 2]) as real / 2.0
  {
    assert |s| == |multiset(s)| == |multiset(t)| == |t|;
    SortSorted(s);
    SortedUnique(Sort(s), t);
  }

  /** The median depends only on which values occur and how often, not on their order. */
  lemma MedianPermutation(s: seq<int>, t: seq<int>)
    requires |s| > 0 && multiset(s) == multiset(t)
    ensures |t| > 0
    ensures Median(s) == Median(t)
  {
    assert |s| == |multiset(s)| == |multiset(t)| == |t|;
    SortSorted(s);
    SortSorted(t);
    SortedUnique(Sort(s), Sort(t));
  }

  /** The median lies within any bounds that hold for every element. */
  lemma MedianBounds(s: seq<int>, lo: int, hi: int)
    requires |s| > 0
    requires forall i :: 0 <= i < |s| ==> lo <= s[i] <= hi
    ensures lo as real <= Median(s) <= hi as real
  {
    var t := Sort(s);
    SortSorted(s);
    forall k | 0 <= k < |t| ensures lo <= t[k] <= hi {
      assert t[k] in multiset(s);
    }
  }

  lemma {:induction false} CountBelowInsert(x: int, t: seq<int>, m: real)
    requires Sorted(t)
    ensures CountBelow(Insert(x, t), m) == CountBelow(t, m) + (if (x as real) < m then 1 else 0)
  {
    if t != [] && x > t[0] {
      assert Sorted(t[1..]);
      CountBelowInsert(x, t[1..], m);
      assert ([t[0]] + Insert(x, t[1..]))[1..] == Insert(x, t[1..]);
    } else {
      assert ([x] + t)[1..] == t;
    }
  }

  lemma {:induction false} CountAboveInsert(x: int, t: seq<int>, m: real)
    requires Sorted(t)
    ensures CountAbove(Insert(x, t), m) == CountAbove(t, m) + (if (x as real) > m then 1 else 0)
  {
    if t != [] && x > t[0] {
      assert Sorted(t[1..]);
      CountAboveInsert(x, t[1..], m);
      assert ([t[0]] + Insert(x, t[1..]))[1..] == Insert(x, t[1..]);
    } else {
      assert ([x] + t)[1..] == t;
    }
  }

  /** Sorting does not change how many elements lie below or above a value. */
  lemma {:induction false} CountsSort(s: seq<int>, m: real)
    ensures CountBelow(Sort(s), m) == CountBelow(s, m)
    ensures CountAbove(Sort(s), m) == CountAbove(s, m)
  {
    if s != [] {
      CountsSort(s[1..], m);
      SortSorted(s[1..]);
      CountBelowInsert(s[0], Sort(s[1..]), m);
      CountAboveInsert(s[0], Sort(s[1..]), m);
    }
  }

  /** In an ascending sequence nothing below `m` sits at or after position `p` when `t[p..]` is at least `m`. */
  lemma {:induction false} CountBelowPrefix(t: seq<int>, m: real, p: nat)
    requires p <= |t|
    requires forall j :: p <= j < |t| ==> t[j] as real >= m
    ensures CountBelow(t, m) <= p
  {
    if t != [] {
      CountBelowPrefix(t[1..], m, if p == 0 then 0 else p - 1);
    }
  }

  lemma {:induction false} CountAboveSuffix(t: seq<int>, m: real, p: nat)
    requires p <= |t|
    requires forall j :: 0 <= j < p ==> t[j] as real <= m
    ensures CountAbove(t, m) <= |t| - p
  {
    if t != [] {
      CountAboveSuffix(t[1..], m, if p == 0 then 0 else p - 1);
    }
  }

  lemma SplitsOdd(t: seq<int>, m: real)
    requires Sorted(t) && |t| % 2 == 1
    requires m == t[|t| / 2] as real
    ensures 2 * CountBelow(t, m) <= |t|
    ensures 2 * CountAbove(t, m) <= |t|
  {
    var k := |t| / 2;
    CountBelowPrefix(t, m, k);
    CountAboveSuffix(t, m, k + 1);
  }

  lemma SplitsEven(t: seq<int>, m: real)
    requires Sorted(t) && |t| % 2 == 0 && |t| > 0
    requires t[|t| / 2 - 1] as real <= m <= t[|t| / 2] as real
    ensures 2 * CountBelow(t, m) <= |t|
    ensures 2 * CountAbove(t, m) <= |t|
  {
    var k := |t| / 2;
    CountBelowPrefix(t, m, k);
    CountAboveSuffix(t, m, k);
  }

  /**
    The defining property of a median, independent of sorting: at most half
    of the values lie strictly below it and at most half strictly above it.
   */
  lemma MedianSplits(s: seq<int>)
    requires |s| > 0
    ensures 2 * CountBelow(s, Median(s)) <= |s|
    ensures 2 * CountAbove(s, Median(s)) <= |s|
  {
    var t := Sort(s);
    var m := Median(s);
    SortSorted(s);
    CountsSort(s, m);
    if |t| % 2 == 1 {
      SplitsOdd(t, m);
    } else {
      assert t[|t| / 2 - 1] <= t[|t| / 2];
      SplitsEven(t, m);
    }
  }
}
