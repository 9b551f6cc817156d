/** Sorting, and the k-th largest element of a list of integers. */
module Ordering {

  predicate Ascending(s: seq<int>) {
    forall i, j :: 0 <= i < j < |s| ==> s[i] <= s[j]
  }

  function Insert(x: int, s: seq<int>): (r: seq<int>)
    requires Ascending(s)
    ensures Ascending(r) && |r| == |s| + 1
    ensures r[0] == if s == [] || x <= s[0] then x else s[0]
  {
    if s == [] || x <= s[0] then [x] + s
    else [s[0]] + Insert(x, s[1..])
  }

  lemma {:induction false} InsertKeepsBag(x: int, s: seq<int>)
    requires Ascending(s)
    ensures multiset(Insert(x, s)) == multiset(s) + multiset{x}
  {
    if s != [] && x > s[0] {
      InsertKeepsBag(x, s[1..]);
      assert s == [s[0]] + s[1..];
    }
  }

  /** The meaning of `sort.Ints`: the same numbers in ascending order. */
  function Sort(s: seq<int>): (r: seq<int>)
    ensures Ascending(r) && |r| == |s|
  {
    if s == [] then [] else Insert(s[0], Sort(s[1..]))
  }

  lemma {:induction false} SortKeepsBag(s: seq<int>)
    ensures multiset(Sort(s)) == multiset(s)
  {
    if s != [] {
      SortKeepsBag(s[1..]);
      InsertKeepsBag(s[0], Sort(s[1..]));
      assert s == [s[0]] + s[1..];
    }
  }

  lemma HeadIsLeast(s: seq<int>, x: int)
    requires Ascending(s) && x in multiset(s)
    ensures s[0] <= x
  {
    assert x in s;
  }

  lemma TailBag(s: seq<int>)
    requires s != []
    ensures multiset(s[1..]) == multiset(s) - multiset{s[0]}
  {
    assert s == [s[0]] + s[1..];
  }

  lemma SameHead(a: seq<int>, b: seq<int>)
    requires Ascending(a) && Ascending(b) && multiset(a) == multiset(b) && a != []
    ensures b != [] && a[0] == b[0]
  {
    assert a[0] in multiset(a);
    HeadIsLeast(b, a[0]);
    assert b[0] in multiset(b);
    HeadIsLeast(a, b[0]);
  }

  lemma SameTail(a: seq<int>, b: seq<int>)
    requires a != [] && b != [] && a[0] == b[0] && multiset(a) == multiset(b)
    ensures multiset(a[1..]) == multiset(b[1..])
  {
    TailBag(a);
    TailBag(b);
  }

  /** There is only one ascending arrangement of a bag of numbers. */
  lemma {:induction false} AscendingUnique(a: seq<int>, b: seq<int>)
    requires Ascending(a) && Ascending(b) && multiset(a) == multiset(b)
    ensures a == b
  {
    if a == [] {
      EmptyBag(b);
    } else {
      SameHead(a, b);
      SameTail(a, b);
      AscendingUnique(a[1..], b[1..]);
      Glue(a, b);
    }
  }

  lemma EmptyBag(b: seq<int>)
    requires multiset(b) == multiset{}
    ensures b == []
  {
    assert |multiset(b)| == |b|;
  }

  lemma Glue(a: seq<int>, b: seq<int>)
    requires a != [] && b != [] && a[0] == b[0] && a[1..] == b[1..]
    ensures a == b
  {
    assert a == [a[0]] + a[1..] && b == [b[0]] + b[1..];
  }

  /** How many elements are at least n. */
  function CountAtLeast(s: seq<int>, n: int): (c: nat)
    ensures c <= |s|
  {
    if s == [] then 0
    else (if s[0] >= n then 1 else 0) + CountAtLeast(s[1..], n)
  }

  lemma {:induction false} CountNone(s: seq<int>, n: int)
    requires forall i :: 0 <= i < |s| ==> s[i] < n
    ensures CountAtLeast(s, n) == 0
  {
    if s != [] {
      CountNone(s[1..], n);
    }
  }

  /** The k-th largest element, counting repetitions. */
  function KthLargest(s: seq<int>, k: nat): int
    requires 1 <= k <= |s|
  {
    Sort(s)[|s| - k]
  }

  lemma {:induction false} CountAfterInsert(x: int, s: seq<int>, n: int)
    requires Ascending(s)
    ensures CountAtLeast(Insert(x, s), n) == CountAtLeast(s, n) + if x >= n then 1 else 0
  {
    if s != [] && x > s[0] {
      CountAfterInsert(x, s[1..], n);
    }
  }

  lemma {:induction false} CountAfterSort(s: seq<int>, n: int)
    ensures CountAtLeast(Sort(s), n) == CountAtLeast(s, n)
  {
    if s != [] {
      CountAfterSort(s[1..], n);
      CountAfterInsert(s[0], Sort(s[1..]), n);
    }
  }

  lemma {:induction false} CountInAscending(s: seq<int>, k: nat, n: int)
    requires Ascending(s) && 1 <= k <= |s|
    ensures CountAtLeast(s, n) >= k <==> s[|s| - k] >= n
  {
    if s[0] >= n {
      CountAll(s, n);
    } else if k < |s| {
      CountInAscending(s[1..], k, n);
    }
  }

  lemma {:induction false} CountAll(s: seq<int>, n: int)
    requires Ascending(s) && (s == [] || s[0] >= n)
    ensures CountAtLeast(s, n) == |s|
  {
    if s != [] {
      CountAll(s[1..], n);
    }
  }

  /** At least k elements reach n exactly when the k-th largest does. */
  lemma KthLargestCounts(s: seq<int>, k: nat, n: int)
    requires 1 <= k <= |s|
    ensures CountAtLeast(s, n) >= k <==> KthLargest(s, k) >= n
  {
    hide Ascending, Sort, CountAtLeast;
    CountAfterSort(s, n);
    CountInAscending(Sort(s), k, n);
  }
}
