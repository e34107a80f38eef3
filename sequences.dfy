/** The `Array.prototype` operations the contexts rely on: `filter`, `find`
    and the stable comparator `sort` (ordering by an integer key, as every
    comparator in the contexts is `key(a) - key(b)`). */
module Sequences {
  import opened Wrappers

  /** `s` is ordered ascending by `key`. */
  predicate SortedBy<T>(s: seq<T>, key: T -> int) {
    forall i, j :: 0 <= i < j < |s| ==> key(s[i]) <= key(s[j])
  }

  /** `s.filter(p)` */
  function Filter<T(!new)>(s: seq<T>, p: T -> bool): (r: seq<T>)
    ensures |r| <= |s|
    ensures forall x :: x in r <==> x in s && p(x)
    ensures forall x :: multiset(r)[x] == if p(x) then multiset(s)[x] else 0
    decreases |s|
  {
    if s == [] then []
    else
      assert s == [s[0]] + s[1..];
      (if p(s[0]) then [s[0]] else []) + Filter(s[1..], p)
  }

  /** Filtering a concatenation filters each part and keeps the parts in
      order; with `Filter([x], p)` this says the kept elements stay in
      their original order. */
  lemma {:induction false} FilterAppend<T(!new)>(s: seq<T>, t: seq<T>, p: T -> bool)
    ensures Filter(s + t, p) == Filter(s, p) + Filter(t, p)
    decreases |s|
  {
    if s == [] {
      assert s + t == t;
    } else {
      var head := if p(s[0]) then [s[0]] else [];
      assert (s + t)[0] == s[0] && (s + t)[1..] == s[1..] + t;
      assert Filter(s + t, p) == head + Filter(s[1..] + t, p);
      assert Filter(s, p) == head + Filter(s[1..], p);
      FilterAppend(s[1..], t, p);
      AppendAssoc(head, Filter(s[1..], p), Filter(t, p));
    }
  }

  lemma AppendAssoc<T>(a: seq<T>, b: seq<T>, c: seq<T>)
    ensures a + (b + c) == (a + b) + c
  {
  }

  /** A sorted list stays sorted with an element in front that is at most
      every element of it. */
  lemma ConsSorted<T>(x: T, rest: seq<T>, key: T -> int)
    requires SortedBy(rest, key)
    requires forall i :: 0 <= i < |rest| ==> key(x) <= key(rest[i])
    ensures SortedBy([x] + rest, key)
  {
    var r := [x] + rest;
    forall i, j | 0 <= i < j < |r| ensures key(r[i]) <= key(r[j]) {
      assert r[j] == rest[j - 1];
      if i > 0 {
        assert r[i] == rest[i - 1];
      }
    }
  }

  lemma {:induction false} FilterKeepsOrder<T(!new)>(s: seq<T>, p: T -> bool, key: T -> int)
    requires SortedBy(s, key)
    ensures SortedBy(Filter(s, p), key)
    decreases |s|
  {
    if s != [] {
      var tail := s[1..];
      FilterKeepsOrder(tail, p, key);
      var rest := Filter(tail, p);
      if p(s[0]) {
        forall i | 0 <= i < |rest| ensures key(s[0]) <= key(rest[i]) {
          assert rest[i] in tail;
          var k :| 0 <= k < |tail| && tail[k] == rest[i];
          assert s[k + 1] == rest[i];
        }
        ConsSorted(s[0], rest, key);
        assert Filter(s, p) == [s[0]] + rest;
      } else {
        assert Filter(s, p) == rest;
      }
    }
  }

  /** Filtering by a predicate and then by a stricter one is filtering by the
      stricter one alone. */
  lemma {:induction false} FilterNarrows<T(!new)>(s: seq<T>, p: T -> bool, q: T -> bool)
    requires forall x :: q(x) ==> p(x)
    ensures Filter(Filter(s, p), q) == Filter(s, q)
    decreases |s|
  {
    if s != [] {
      FilterNarrows(s[1..], p, q);
      var head := if q(s[0]) then [s[0]] else [];
      assert Filter(s, q) == head + Filter(s[1..], q);
      if p(s[0]) {
        var ps := Filter(s, p);
        assert ps == [s[0]] + Filter(s[1..], p);
        assert ps[0] == s[0] && ps[1..] == Filter(s[1..], p);
        assert Filter(ps, q) == head + Filter(ps[1..], q);
      } else {
        assert !q(s[0]);
        assert Filter(s, p) == Filter(s[1..], p);
      }
    }
  }

  /** `s.find(p)`: the first element that satisfies `p`, if any. */
  function FindFirst<T>(s: seq<T>, p: T -> bool): (r: Option<T>)
    ensures r.None? <==> forall i :: 0 <= i < |s| ==> !p(s[i])
    ensures r.Some? ==> exists i :: 0 <= i < |s| && s[i] == r.value && p(s[i])
                                    && forall j :: 0 <= j < i ==> !p(s[j])
    decreases |s|
  {
    if s == [] then None
    else if p(s[0]) then Some(s[0])
    else
      var r := FindFirst(s[1..], p);
      assert r.Some? ==> exists i :: 1 <= i < |s| && s[i] == r.value && p(s[i])
                                     && forall j :: 0 <= j < i ==> !p(s[j]) by {
        if r.Some? {
          var i :| 0 <= i < |s[1..]| && s[1..][i] == r.value && p(s[1..][i])
                   && forall j :: 0 <= j < i ==> !p(s[1..][j]);
          assert forall j :: 1 <= j < i + 1 ==> s[j] == s[1..][j - 1];
        }
      }
      r
  }

  /** Inserts `x` behind every element whose key is not greater than `x`'s:
      the step of a stable insertion sort that takes `x` as the last input. */
  function InsertBy<T>(s: seq<T>, x: T, key: T -> int): (r: seq<T>)
    ensures |r| == |s| + 1
    ensures multiset(r) == multiset(s) + multiset{x}
    decreases |s|
  {
    if s == [] || key(s[|s| - 1]) <= key(x) then s + [x]
    else
      assert s == s[..|s| - 1] + [s[|s| - 1]];
      InsertBy(s[..|s| - 1], x, key) + [s[|s| - 1]]
  }

  /** Where `InsertBy` puts `x`: behind the elements whose key is at most `x`'s. */
  function InsertIndex<T>(s: seq<T>, x: T, key: T -> int): (k: nat)
    ensures k <= |s|
    decreases |s|
  {
    if s == [] || key(s[|s| - 1]) <= key(x) then |s|
    else InsertIndex(s[..|s| - 1], x, key)
  }

  /** `InsertBy` splices `x` in at `InsertIndex`, whatever the input. */
  lemma {:induction false} InsertByIsSplice<T>(s: seq<T>, x: T, key: T -> int)
    ensures var k := InsertIndex(s, x, key); InsertBy(s, x, key) == s[..k] + [x] + s[k..]
    decreases |s|
  {
    if s == [] || key(s[|s| - 1]) <= key(x) {
      assert s[..|s|] == s && s[|s|..] == [];
    } else {
      var init, last := s[..|s| - 1], s[|s| - 1];
      var k := InsertIndex(init, x, key);
      assert InsertIndex(s, x, key) == k;
      assert InsertBy(s, x, key) == InsertBy(init, x, key) + [last];
      InsertByIsSplice(init, x, key);
      assert s[..k] == init[..k];
      assert s[k..] == init[k..] + [last];
      SpliceThenAppend(init[..k], x, init[k..], last);
    }
  }

  lemma SpliceThenAppend<T>(a: seq<T>, x: T, b: seq<T>, last: T)
    ensures (a + [x] + b) + [last] == a + [x] + (b + [last])
  {
  }

  /** On a sorted input, the elements before `InsertIndex` have keys at most
      `x`'s and those after have greater keys. */
  lemma {:induction false} InsertIndexBounds<T>(s: seq<T>, x: T, key: T -> int)
    requires SortedBy(s, key)
    ensures var k := InsertIndex(s, x, key);
      && (forall i :: 0 <= i < k ==> key(s[i]) <= key(x))
      && (forall i :: k <= i < |s| ==> key(x) < key(s[i]))
    decreases |s|
  {
    if s == [] || key(s[|s| - 1]) <= key(x) {
      forall i | 0 <= i < |s| ensures key(s[i]) <= key(x) {
        assert key(s[i]) <= key(s[|s| - 1]);
      }
    } else {
      var init := s[..|s| - 1];
      assert SortedBy(init, key);
      InsertIndexBounds(init, x, key);
      var k := InsertIndex(init, x, key);
      forall i | 0 <= i < k ensures key(s[i]) <= key(x) {
        assert s[i] == init[i];
      }
      forall i | k <= i < |s| ensures key(x) < key(s[i]) {
        if i < |s| - 1 {
          assert s[i] == init[i];
        }
      }
    }
  }

  /** On a sorted input, `InsertBy` splices `x` in at `InsertIndex`, so all
      elements before it have keys at most `x`'s and all after are greater:
      the input keeps its order and `x` lands after its equals (stability). */
  lemma InsertBySplices<T>(s: seq<T>, x: T, key: T -> int)
    requires SortedBy(s, key)
    ensures var k := InsertIndex(s, x, key);
      && InsertBy(s, x, key) == s[..k] + [x] + s[k..]
      && (forall i :: 0 <= i < k ==> key(s[i]) <= key(x))
      && (forall i :: k <= i < |s| ==> key(x) < key(s[i]))
  {
    InsertByIsSplice(s, x, key);
    InsertIndexBounds(s, x, key);
  }

  lemma InsertBySorted<T>(s: seq<T>, x: T, key: T -> int)
    requires SortedBy(s, key)
    ensures SortedBy(InsertBy(s, x, key), key)
  {
    InsertBySplices(s, x, key);
    var k := InsertIndex(s, x, key);
    var r := InsertBy(s, x, key);
    assert forall i :: 0 <= i < |r| ==> r[i] == if i < k then s[i] else if i == k then x else s[i - 1];
    forall i, j | 0 <= i < j < |r| ensures key(r[i]) <= key(r[j]) {
      if j < k {
        assert key(s[i]) <= key(s[j]);
      } else if i > k {
        assert key(s[i - 1]) <= key(s[j - 1]);
      }
    }
  }

  /** `s.sort((a, b) => key(a) - key(b))`: a stable sort, written as an
      insertion sort that inserts the elements in input order. */
  function SortBy<T>(s: seq<T>, key: T -> int): (r: seq<T>)
    ensures SortedBy(r, key)
    ensures multiset(r) == multiset(s)
    ensures |r| == |s|
    decreases |s|
  {
    if s == [] then []
    else
      assert s == s[..|s| - 1] + [s[|s| - 1]];
      InsertBySorted(SortBy(s[..|s| - 1], key), s[|s| - 1], key);
      InsertBy(SortBy(s[..|s| - 1], key), s[|s| - 1], key)
  }

  /** Sorting a sorted sequence changes nothing. */
  lemma {:induction false} SortBySortedIsIdentity<T>(s: seq<T>, key: T -> int)
    requires SortedBy(s, key)
    ensures SortBy(s, key) == s
    decreases |s|
  {
    if s != [] {
      var init := s[..|s| - 1];
      assert SortedBy(init, key);
      SortBySortedIsIdentity(init, key);
      var last := s[|s| - 1];
      assert SortBy(s, key) == InsertBy(SortBy(init, key), last, key);
      assert init == [] || key(init[|init| - 1]) <= key(last);
      assert InsertBy(init, last, key) == init + [last];
    }
  }

  /** Appending to a sorted sequence and sorting is one insertion. */
  lemma SortAppendIsInsert<T>(s: seq<T>, x: T, key: T -> int)
    requires SortedBy(s, key)
    ensures SortBy(s + [x], key) == InsertBy(s, x, key)
  {
    assert (s + [x])[..|s|] == s;
    SortBySortedIsIdentity(s, key);
  }
}
