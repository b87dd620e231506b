/** Filtering and ordering of query results: the `.eq`/`.in`/`.lte` filters
    and the `.order(..., { ascending: true })` clause of the store's query
    builder, and the `Array.prototype.filter` calls of the pages. */
module Seqs {
  import opened Wrappers

  /** The elements of `s` satisfying `f`, in their original order. */
  function Filter<T>(s: seq<T>, f: T -> bool): (r: seq<T>)
    ensures |r| <= |s|
    ensures forall i :: 0 <= i < |r| ==> r[i] in s && f(r[i])
    ensures forall i :: 0 <= i < |s| && f(s[i]) ==> s[i] in r
  {
    if s == [] then [] else (if f(s[0]) then [s[0]] else []) + Filter(s[1..], f)
  }

  /** `r` is `s` with some elements taken out, the rest in their order. */
  ghost predicate Subseq<T>(r: seq<T>, s: seq<T>)
    decreases |s|
  {
    if r == [] then true
    else if s == [] then false
    else (r[0] == s[0] && Subseq(r[1..], s[1..])) || Subseq(r, s[1..])
  }

  /** A filter keeps the order of what it keeps. */
  lemma {:induction false} FilterIsSubsequence<T>(s: seq<T>, f: T -> bool)
    ensures Subseq(Filter(s, f), s)
  {
    if s != [] {
      FilterIsSubsequence(s[1..], f);
      if f(s[0]) {
        var r := Filter(s, f);
        assert r == [s[0]] + Filter(s[1..], f);
        assert r[0] == s[0] && r[1..] == Filter(s[1..], f);
      } else {
        assert Filter(s, f) == Filter(s[1..], f);
      }
    }
  }

  lemma {:induction false} FilterAppend<T>(a: seq<T>, b: seq<T>, f: T -> bool)
    ensures Filter(a + b, f) == Filter(a, f) + Filter(b, f)
  {
    if a == [] {
      assert a + b == b;
    } else {
      assert (a + b)[1..] == a[1..] + b;
      FilterAppend(a[1..], b, f);
    }
  }

  /** Nothing passes a filter that no element satisfies. */
  lemma {:induction false} FilterNone<T>(s: seq<T>, f: T -> bool)
    requires forall i :: 0 <= i < |s| ==> !f(s[i])
    ensures Filter(s, f) == []
  {
    if s != [] {
      assert forall i :: 0 <= i < |s[1..]| ==> s[1..][i] == s[i + 1];
      FilterNone(s[1..], f);
    }
  }

  /** The first step of a filter. */
  lemma {:induction false} FilterCons<T>(s: seq<T>, f: T -> bool)
    requires s != []
    ensures multiset(Filter(s, f)) == (if f(s[0]) then multiset{s[0]} else multiset{}) + multiset(Filter(s[1..], f))
  {
    var head: seq<T> := if f(s[0]) then [s[0]] else [];
    assert Filter(s, f) == head + Filter(s[1..], f);
    assert multiset(head) == if f(s[0]) then multiset{s[0]} else multiset{};
  }

  /** A filter of `[x] + t` is `x`, if it passes, ahead of the filter of `t`. */
  lemma {:induction false} FilterMultisetCons<T>(x: T, t: seq<T>, f: T -> bool)
    ensures multiset(Filter([x] + t, f)) == (if f(x) then multiset{x} else multiset{}) + multiset(Filter(t, f))
  {
    var s := [x] + t;
    assert s[0] == x && s[1..] == t;
    var head: seq<T> := if f(x) then [x] else [];
    assert Filter(s, f) == head + Filter(t, f);
    assert multiset(head + Filter(t, f)) == multiset(head) + multiset(Filter(t, f));
  }

  /** Two filters whose predicates are complementary on `s` split it: every
      element lands in exactly one of the two results. */
  lemma {:induction false} FilterSplit<T>(s: seq<T>, f: T -> bool, g: T -> bool)
    requires forall i :: 0 <= i < |s| ==> (f(s[i]) <==> !g(s[i]))
    ensures multiset(Filter(s, f)) + multiset(Filter(s, g)) == multiset(s)
  {
    if s != [] {
      var x, t := s[0], s[1..];
      assert s == [x] + t;
      assert forall i :: 0 <= i < |t| ==> t[i] == s[i + 1];
      FilterSplit(t, f, g);
      FilterMultisetCons(x, t, f);
      FilterMultisetCons(x, t, g);
      var a, b := multiset(Filter(t, f)), multiset(Filter(t, g));
      assert a + b == multiset(t);
      assert multiset(s) == multiset{x} + multiset(t);
      if f(x) {
        assert multiset(Filter(s, f)) == multiset{x} + a && multiset(Filter(s, g)) == b;
      } else {
        assert multiset(Filter(s, g)) == multiset{x} + b && multiset(Filter(s, f)) == a;
      }
    }
  }

  /** The same for three predicates of which exactly one holds of each element. */
  lemma {:induction false} FilterSplit3<T>(s: seq<T>, f: T -> bool, g: T -> bool, h: T -> bool)
    requires forall i :: 0 <= i < |s| ==> (f(s[i]) <==> !g(s[i]) && !h(s[i])) && !(g(s[i]) && h(s[i]))
    ensures multiset(Filter(s, f)) + multiset(Filter(s, g)) + multiset(Filter(s, h)) == multiset(s)
  {
    if s != [] {
      var x, t := s[0], s[1..];
      assert s == [x] + t;
      assert forall i :: 0 <= i < |t| ==> t[i] == s[i + 1];
      FilterSplit3(t, f, g, h);
      FilterMultisetCons(x, t, f);
      FilterMultisetCons(x, t, g);
      FilterMultisetCons(x, t, h);
      var a, b, c := multiset(Filter(t, f)), multiset(Filter(t, g)), multiset(Filter(t, h));
      var ef: multiset<T> := if f(x) then multiset{x} else multiset{};
      var eg: multiset<T> := if g(x) then multiset{x} else multiset{};
      var eh: multiset<T> := if h(x) then multiset{x} else multiset{};
      assert ef + eg + eh == multiset{x};
      assert multiset(s) == multiset{x} + multiset(t);
      SumOfThree(ef, eg, eh, a, b, c);
    }
  }

  lemma SumOfThree<T>(ef: multiset<T>, eg: multiset<T>, eh: multiset<T>, a: multiset<T>, b: multiset<T>, c: multiset<T>)
    ensures (ef + a) + (eg + b) + (eh + c) == (ef + eg + eh) + (a + b + c)
  {
  }

  ghost predicate SortedBy<T>(s: seq<T>, key: T -> int) {
    forall i, j :: 0 <= i < j < |s| ==> key(s[i]) <= key(s[j])
  }

  lemma {:induction false} SortedCons<T>(x: T, r: seq<T>, key: T -> int)
    requires SortedBy(r, key)
    requires forall i :: 0 <= i < |r| ==> key(x) <= key(r[i])
    ensures SortedBy([x] + r, key)
  {
    var s := [x] + r;
    forall i, j | 0 <= i < j < |s| ensures key(s[i]) <= key(s[j]) {
      assert s[j] == r[j - 1];
      if i > 0 {
        assert s[i] == r[i - 1];
      }
    }
  }

  /** Filtering keeps the relative order, so it keeps a sorted sequence sorted. */
  lemma {:induction false} FilterSorted<T>(s: seq<T>, f: T -> bool, key: T -> int)
    requires SortedBy(s, key)
    ensures SortedBy(Filter(s, f), key)
  {
    if s != [] {
      var t := s[1..];
      assert SortedBy(t, key) by {
        assert forall i :: 0 <= i < |t| ==> t[i] == s[i + 1];
      }
      FilterSorted(t, f, key);
      var rest := Filter(t, f);
      if f(s[0]) {
        forall i | 0 <= i < |rest| ensures key(s[0]) <= key(rest[i]) {
          var j :| 0 <= j < |t| && t[j] == rest[i];
          assert s[j + 1] == rest[i];
        }
        SortedCons(s[0], rest, key);
      } else {
        assert Filter(s, f) == rest;
      }
    }
  }

  /** Inserts `x` before the first element whose key is at least `key(x)`,
      so that `x` precedes the elements with an equal key. */
  function Insert<T>(x: T, s: seq<T>, key: T -> int): (r: seq<T>)
    requires SortedBy(s, key)
    ensures SortedBy(r, key)
    ensures multiset(r) == multiset(s) + multiset{x}
  {
    if s == [] || key(x) <= key(s[0]) then
      SortedCons(x, s, key);
      [x] + s
    else
      var t := s[1..];
      SortedTail(s, key);
      var rest := Insert(x, t, key);
      assert multiset(s) == multiset{s[0]} + multiset(t) by {
        assert s == [s[0]] + t;
      }
      BoundedByMultiset(rest, multiset(t) + multiset{x}, key, key(s[0]));
      SortedCons(s[0], rest, key);
      [s[0]] + rest
  }

  /** The tail of an ascending sequence is ascending and bounded below by
      the head. */
  lemma SortedTail<T>(s: seq<T>, key: T -> int)
    requires s != [] && SortedBy(s, key)
    ensures SortedBy(s[1..], key)
    ensures forall y :: y in multiset(s[1..]) ==> key(s[0]) <= key(y)
  {
    var t := s[1..];
    assert forall i :: 0 <= i < |t| ==> t[i] == s[i + 1];
    forall y | y in multiset(t) ensures key(s[0]) <= key(y) {
      assert y in t;
      var j :| 0 <= j < |t| && t[j] == y;
    }
  }

  /** A bound on every element of a multiset bounds every element of a
      sequence with those elements. */
  lemma BoundedByMultiset<T>(r: seq<T>, m: multiset<T>, key: T -> int, lo: int)
    requires multiset(r) == m
    requires forall y :: y in m ==> lo <= key(y)
    ensures forall i :: 0 <= i < |r| ==> lo <= key(r[i])
  {
    forall i | 0 <= i < |r| ensures lo <= key(r[i]) {
      assert r[i] in multiset(r);
    }
  }

  /** Ascending order on `key`; elements with equal keys keep their order. */
  function SortBy<T>(s: seq<T>, key: T -> int): (r: seq<T>)
    ensures SortedBy(r, key)
    ensures multiset(r) == multiset(s)
  {
    if s == [] then []
    else
      assert s == [s[0]] + s[1..];
      Insert(s[0], SortBy(s[1..], key), key)
  }

  function HasKey<T>(key: T -> int, k: int): T -> bool {
    (x: T) => key(x) == k
  }

  lemma FilterPrepend<T>(x: T, s: seq<T>, f: T -> bool)
    ensures Filter([x] + s, f) == (if f(x) then [x] else []) + Filter(s, f)
  {
    assert ([x] + s)[1..] == s;
  }

  /** Inserting `x` adds it in front of the elements with its key and
      leaves the order among those elements as it was. */
  lemma {:induction false} InsertKeepsKeyOrder<T>(x: T, s: seq<T>, key: T -> int, k: int)
    requires SortedBy(s, key)
    ensures Filter(Insert(x, s, key), HasKey(key, k)) == (if HasKey(key, k)(x) then [x] else []) + Filter(s, HasKey(key, k))
    decreases |s|
  {
    if s == [] || key(x) <= key(s[0]) {
      FilterPrepend(x, s, HasKey(key, k));
    } else {
      var t := s[1..];
      assert SortedBy(t, key) by {
        assert forall i :: 0 <= i < |t| ==> t[i] == s[i + 1];
      }
      assert Insert(x, s, key) == [s[0]] + Insert(x, t, key);
      InsertKeepsKeyOrder(x, t, key, k);
      assert s == [s[0]] + t;
      var f := HasKey(key, k);
      var r := Insert(x, t, key);
      FilterPrepend(s[0], r, f);
      FilterPrepend(s[0], t, f);
      assert f(x) ==> !f(s[0]);
      SwapWithEmpty(if f(x) then [x] else [], if f(s[0]) then [s[0]] else [], Filter(t, f));
    }
  }

  /** Two pieces of which at most one is non-empty can trade places. */
  lemma SwapWithEmpty<T>(hx: seq<T>, hy: seq<T>, rest: seq<T>)
    requires hx == [] || hy == []
    ensures hy + (hx + rest) == hx + (hy + rest)
  {
  }

  /** `SortBy` is stable: the elements with any one key come out in the
      order they went in. */
  lemma {:induction false} SortByStable<T>(s: seq<T>, key: T -> int, k: int)
    ensures Filter(SortBy(s, key), HasKey(key, k)) == Filter(s, HasKey(key, k))
  {
    if s != [] {
      SortByStable(s[1..], key, k);
      InsertKeepsKeyOrder(s[0], SortBy(s[1..], key), key, k);
      assert s == [s[0]] + s[1..];
      FilterPrepend(s[0], s[1..], HasKey(key, k));
    }
  }

  /** No two elements of `s` share a key. */
  ghost predicate DistinctBy<T>(s: seq<T>, key: T -> int) {
    forall i, j :: 0 <= i < j < |s| ==> key(s[i]) != key(s[j])
  }

  lemma {:induction false} FilterDistinct<T>(s: seq<T>, f: T -> bool, key: T -> int)
    requires DistinctBy(s, key)
    ensures DistinctBy(Filter(s, f), key)
  {
    if s != [] {
      FilterDistinct(s[1..], f, key);
      var rest := Filter(s[1..], f);
      forall i | 0 <= i < |rest| ensures key(s[0]) != key(rest[i]) {
        var j :| 0 <= j < |s[1..]| && s[1..][j] == rest[i];
        assert s[j + 1] == rest[i];
      }
    }
  }

  /** The position of the first element satisfying `f`, if there is one. */
  function IndexOfFirst<T>(s: seq<T>, f: T -> bool): (r: Option<nat>)
    ensures r.Some? ==> r.value < |s| && f(s[r.value]) && forall j :: 0 <= j < r.value ==> !f(s[j])
    ensures r.None? ==> forall j :: 0 <= j < |s| ==> !f(s[j])
  {
    if s == [] then None
    else if f(s[0]) then Some(0)
    else
      var r := IndexOfFirst(s[1..], f);
      if r.Some? then Some(r.value + 1) else None
  }
}
