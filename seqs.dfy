/**
 * The array operations the views use, over sequences: `filter`, `some`, de-duplication in
 * first-appearance order (`Array.from(new Set(xs))`) and a stable sort (`Array.prototype.sort`).
 */
module Seqs {

  // ---------------------------------------------------------------------------
  // filter

  /** `s.filter(p)`: the elements satisfying `p`, in their original order. */
  function Filter<T>(p: T -> bool, s: seq<T>): (r: seq<T>)
    ensures |r| <= |s|
    ensures forall k :: 0 <= k < |r| ==> p(r[k])
    ensures forall k :: 0 <= k < |r| ==> r[k] in s
    ensures forall k :: 0 <= k < |s| && p(s[k]) ==> s[k] in r
  {
    if s == [] then [] else (if p(s[0]) then [s[0]] else []) + Filter(p, s[1..])
  }

  /** `a` is obtained from `b` by deleting elements, keeping the order of the rest. */
  predicate IsSubsequence<T(==)>(a: seq<T>, b: seq<T>)
    decreases |b|
  {
    if b == [] then a == []
    else (a != [] && a[0] == b[0] && IsSubsequence(a[1..], b[1..])) || IsSubsequence(a, b[1..])
  }

  /** What `filter` keeps stands in its original order. */
  lemma {:induction false} FilterIsSubsequence<T>(p: T -> bool, s: seq<T>)
    ensures IsSubsequence(Filter(p, s), s)
  {
    if s != [] {
      FilterIsSubsequence(p, s[1..]);
      if p(s[0]) {
        assert ([s[0]] + Filter(p, s[1..]))[1..] == Filter(p, s[1..]);
      } else {
        assert Filter(p, s) == Filter(p, s[1..]);
      }
    }
  }

  /** `filter` keeps every occurrence of a satisfying element and drops every other one. */
  lemma {:induction false} FilterMultiset<T>(p: T -> bool, s: seq<T>, x: T)
    ensures multiset(Filter(p, s))[x] == if p(x) then multiset(s)[x] else 0
  {
    if s != [] {
      FilterMultiset(p, s[1..], x);
      var h: seq<T> := if p(s[0]) then [s[0]] else [];
      assert Filter(p, s) == h + Filter(p, s[1..]);
      assert multiset(Filter(p, s)) == multiset(h) + multiset(Filter(p, s[1..]));
      assert s == [s[0]] + s[1..];
      assert multiset(s) == multiset{s[0]} + multiset(s[1..]);
    }
  }

  /** A predicate that holds of every element keeps the whole sequence. */
  lemma {:induction false} FilterKeepsAll<T>(p: T -> bool, s: seq<T>)
    requires forall k :: 0 <= k < |s| ==> p(s[k])
    ensures Filter(p, s) == s
  {
    if s != [] {
      FilterKeepsAll(p, s[1..]);
    }
  }

  /** `filter` yields nothing exactly when no element satisfies the predicate. */
  lemma FilterEmptyIff<T>(p: T -> bool, s: seq<T>)
    ensures Filter(p, s) == [] <==> forall k :: 0 <= k < |s| ==> !p(s[k])
  {
    if Filter(p, s) == [] {
      forall k | 0 <= k < |s| ensures !p(s[k]) {
        assert s[k] in s;
      }
    } else {
      assert Filter(p, s)[0] in s;
    }
  }

  /** `s.some(p)`. */
  function Some<T>(p: T -> bool, s: seq<T>): (b: bool)
    ensures b <==> exists k :: 0 <= k < |s| && p(s[k])
  {
    if s == [] then false
    else if p(s[0]) then (assert p(s[0]); true)
    else (
      var b := Some(p, s[1..]);
      assert b ==> exists k :: 0 <= k < |s| && p(s[k]) by {
        if b { var k :| 0 <= k < |s[1..]| && p(s[1..][k]); assert p(s[k + 1]); }
      }
      b)
  }

  // ---------------------------------------------------------------------------
  // distinct elements in first-appearance order

  predicate NoDuplicates<T(==)>(s: seq<T>) {
    forall i, j :: 0 <= i < j < |s| ==> s[i] != s[j]
  }

  /** The index of the first occurrence of `x` in `s`. */
  function FirstIndex<T(==)>(s: seq<T>, x: T): (i: nat)
    requires x in s
    ensures i < |s| && s[i] == x
    ensures forall j :: 0 <= j < i ==> s[j] != x
  {
    if s[0] == x then 0 else 1 + FirstIndex(s[1..], x)
  }

  /**
   * `Array.from(new Set(s))`: each element once, in the order of its first appearance
   * (a `Set` keeps insertion order and ignores repeated insertions).
   */
  function Distinct<T(==)>(s: seq<T>): (r: seq<T>)
    ensures forall k :: 0 <= k < |r| ==> r[k] in s
    ensures forall k :: 0 <= k < |s| ==> s[k] in r
    ensures NoDuplicates(r)
  {
    if s == [] then []
    else
      var d := Distinct(s[..|s| - 1]);
      var x := s[|s| - 1];
      assert forall k :: 0 <= k < |s| - 1 ==> s[k] == s[..|s| - 1][k];
      if x in d then d else d + [x]
  }

  /** A first occurrence in a prefix is the first occurrence in the whole sequence. */
  lemma {:induction false} FirstIndexOfPrefix<T>(s: seq<T>, n: nat, x: T)
    requires n <= |s| && x in s[..n]
    ensures x in s && FirstIndex(s, x) == FirstIndex(s[..n], x)
  {
    var i := FirstIndex(s[..n], x);
    assert s[i] == x;
    forall j | 0 <= j < i ensures s[j] != x {
      assert s[..n][j] == s[j];
    }
    FirstIndexUnique(s, x, i);
  }

  /** An occurrence with no earlier occurrence is the first one. */
  lemma FirstIndexUnique<T>(s: seq<T>, x: T, i: nat)
    requires i < |s| && s[i] == x
    requires forall j :: 0 <= j < i ==> s[j] != x
    ensures FirstIndex(s, x) == i
  {
  }

  /** Every element of `d` occurs in `s`, and `d` lists them in increasing order of first occurrence. */
  predicate InFirstAppearanceOrder<T(==)>(d: seq<T>, s: seq<T>) {
    forall i, j :: 0 <= i < j < |d| ==> d[i] in s && d[j] in s && FirstIndex(s, d[i]) < FirstIndex(s, d[j])
  }

  /** `Distinct` lists the elements in increasing order of their first appearance in `s`. */
  lemma {:induction false} DistinctInFirstAppearanceOrder<T>(s: seq<T>)
    ensures InFirstAppearanceOrder(Distinct(s), s)
  {
    if s != [] {
      var p := s[..|s| - 1];
      DistinctInFirstAppearanceOrder(p);
      AppendKeepsOrder(s, Distinct(p));
    }
  }

  /** One step of `Distinct`: appending the last element keeps the order, if it is new. */
  lemma AppendKeepsOrder<T>(s: seq<T>, d: seq<T>)
    requires s != [] && d == Distinct(s[..|s| - 1])
    requires InFirstAppearanceOrder(d, s[..|s| - 1])
    ensures InFirstAppearanceOrder(Distinct(s), s)
  {
    var x := s[|s| - 1];
    OrderCarriesOver(s, d);
    if x !in d {
      AppendNewKeepsOrder(s, d);
    }
  }

  /** First occurrences in `s` without its last element are first occurrences in `s`. */
  lemma OrderCarriesOver<T>(s: seq<T>, d: seq<T>)
    requires s != [] && forall k :: 0 <= k < |d| ==> d[k] in s[..|s| - 1]
    requires InFirstAppearanceOrder(d, s[..|s| - 1])
    ensures InFirstAppearanceOrder(d, s)
  {
    var p := s[..|s| - 1];
    forall i | 0 <= i < |d| ensures d[i] in s && FirstIndex(s, d[i]) == FirstIndex(p, d[i]) {
      FirstIndexOfPrefix(s, |s| - 1, d[i]);
    }
  }

  /** A last element seen for the first time goes after everything seen before it. */
  lemma AppendNewKeepsOrder<T>(s: seq<T>, d: seq<T>)
    requires s != [] && d == Distinct(s[..|s| - 1]) && s[|s| - 1] !in d
    requires InFirstAppearanceOrder(d, s)
    ensures InFirstAppearanceOrder(d + [s[|s| - 1]], s)
  {
    var p := s[..|s| - 1];
    var x := s[|s| - 1];
    var r := d + [x];
    forall k | 0 <= k < |p| ensures s[k] != x {
      assert p[k] in d;
    }
    FirstIndexUnique(s, x, |s| - 1);
    forall i, j | 0 <= i < j < |r| ensures r[i] in s && r[j] in s && FirstIndex(s, r[i]) < FirstIndex(s, r[j]) {
      if j == |d| {
        assert r[i] == d[i] && r[j] == x;
      } else {
        assert r[i] == d[i] && r[j] == d[j];
      }
    }
  }

  // ---------------------------------------------------------------------------
  // stable sort, largest key first

  /** `key` does not increase along `s`. */
  predicate SortedDesc<T>(key: T -> int, s: seq<T>) {
    forall i, j :: 0 <= i < j < |s| ==> key(s[i]) >= key(s[j])
  }

  /** Inserts `x` before the first element whose key is not larger than `x`'s. */
  function InsertDesc<T>(key: T -> int, x: T, s: seq<T>): seq<T> {
    if s == [] || key(s[0]) <= key(x) then [x] + s
    else [s[0]] + InsertDesc(key, x, s[1..])
  }

  /** Insertion adds `x` and loses nothing. */
  lemma {:induction false} InsertDescMultiset<T>(key: T -> int, x: T, s: seq<T>)
    ensures multiset(InsertDesc(key, x, s)) == multiset(s) + multiset{x}
  {
    if s != [] && key(s[0]) > key(x) {
      InsertDescMultiset(key, x, s[1..]);
      assert s == [s[0]] + s[1..];
    }
  }

  /** Inserting into a sequence sorted by decreasing key keeps it sorted. */
  lemma {:induction false} InsertDescSorted<T>(key: T -> int, x: T, s: seq<T>)
    requires SortedDesc(key, s)
    ensures SortedDesc(key, InsertDesc(key, x, s))
  {
    if s != [] && key(s[0]) > key(x) {
      var t := InsertDesc(key, x, s[1..]);
      InsertDescSorted(key, x, s[1..]);
      InsertDescBounded(key, x, s[1..], key(s[0]));
      var r := [s[0]] + t;
      forall i, j | 0 <= i < j < |r| ensures key(r[i]) >= key(r[j]) {
        if i > 0 { assert r[i] == t[i - 1] && r[j] == t[j - 1]; } else { assert r[j] == t[j - 1]; }
      }
    }
  }

  /** Inserting an element whose key is at most `b` into elements whose keys are at most `b`. */
  lemma {:induction false} InsertDescBounded<T>(key: T -> int, x: T, s: seq<T>, b: int)
    requires key(x) <= b && forall k :: 0 <= k < |s| ==> key(s[k]) <= b
    ensures forall k :: 0 <= k < |InsertDesc(key, x, s)| ==> key(InsertDesc(key, x, s)[k]) <= b
  {
    if s != [] && key(s[0]) > key(x) {
      InsertDescBounded(key, x, s[1..], b);
      var t := InsertDesc(key, x, s[1..]);
      assert InsertDesc(key, x, s) == [s[0]] + t;
    }
  }

  /**
   * `s.sort((a, b) => key(b) - key(a))`: largest key first; elements with equal keys keep
   * their original order (the sort is stable).
   */
  function SortDesc<T>(key: T -> int, s: seq<T>): (r: seq<T>)
    ensures multiset(r) == multiset(s)
    ensures SortedDesc(key, r)
  {
    if s == [] then []
    else
      assert s == [s[0]] + s[1..];
      InsertDescSorted(key, s[0], SortDesc(key, s[1..]));
      InsertDescMultiset(key, s[0], SortDesc(key, s[1..]));
      InsertDesc(key, s[0], SortDesc(key, s[1..]))
  }

  /** The elements of `s` whose key is `v`, in the order of `s`. */
  function WithKey<T>(key: T -> int, v: int, s: seq<T>): seq<T> {
    if s == [] then [] else (if key(s[0]) == v then [s[0]] else []) + WithKey(key, v, s[1..])
  }

  /** `WithKey` keeps exactly the elements whose key is `v`. */
  lemma {:induction false} WithKeyMembers<T>(key: T -> int, v: int, s: seq<T>)
    ensures forall k :: 0 <= k < |WithKey(key, v, s)| ==> key(WithKey(key, v, s)[k]) == v && WithKey(key, v, s)[k] in s
    ensures forall k :: 0 <= k < |s| && key(s[k]) == v ==> s[k] in WithKey(key, v, s)
  {
    if s != [] {
      WithKeyMembers(key, v, s[1..]);
      var h: seq<T> := if key(s[0]) == v then [s[0]] else [];
      var r := WithKey(key, v, s);
      assert r == h + WithKey(key, v, s[1..]);
      forall k | 0 <= k < |r| ensures key(r[k]) == v && r[k] in s {
        if k >= |h| {
          assert r[k] == WithKey(key, v, s[1..])[k - |h|];
        }
      }
      forall k | 0 <= k < |s| && key(s[k]) == v ensures s[k] in r {
        if k > 0 {
          assert s[k] == s[1..][k - 1];
        }
      }
    }
  }

  /** Inserting `x` leaves the elements of any one key value in the order they had. */
  lemma {:induction false} InsertDescKeepsTies<T>(key: T -> int, x: T, s: seq<T>, v: int)
    ensures WithKey(key, v, InsertDesc(key, x, s)) == (if key(x) == v then [x] else []) + WithKey(key, v, s)
  {
    if s != [] && key(s[0]) > key(x) {
      var t := InsertDesc(key, x, s[1..]);
      var w := WithKey(key, v, s[1..]);
      var cx: seq<T> := if key(x) == v then [x] else [];
      var c0: seq<T> := if key(s[0]) == v then [s[0]] else [];
      InsertDescKeepsTies(key, x, s[1..], v);
      assert WithKey(key, v, t) == cx + w;
      WithKeyCons(key, v, s[0], t);
      assert WithKey(key, v, s) == c0 + w;
      assert c0 == [] || cx == [];
      assert c0 + (cx + w) == cx + (c0 + w);
    } else {
      WithKeyCons(key, v, x, s);
    }
  }

  lemma WithKeyCons<T>(key: T -> int, v: int, a: T, t: seq<T>)
    ensures WithKey(key, v, [a] + t) == (if key(a) == v then [a] else []) + WithKey(key, v, t)
  {
    assert ([a] + t)[1..] == t;
  }

  /** The sort is stable: among elements with the same key, the original order survives. */
  lemma {:induction false} SortDescIsStable<T>(key: T -> int, s: seq<T>, v: int)
    ensures WithKey(key, v, SortDesc(key, s)) == WithKey(key, v, s)
  {
    if s != [] {
      SortDescIsStable(key, s[1..], v);
      InsertDescKeepsTies(key, s[0], SortDesc(key, s[1..]), v);
    }
  }
}
