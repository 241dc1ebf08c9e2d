/**
 * The list operations the stores, reducers and pages are built from: `Array.filter`,
 * `Array.slice`, `findIndex`, replace-by-id through `map` or indexed assignment, and
 * remove-by-id through `filter`.
 */
module Lists {
  import opened Wrappers

  /** `s.filter(p)`: the elements satisfying `p`, in their original order. */
  function Filter<T(!new)>(s: seq<T>, p: T -> bool): (r: seq<T>)
    ensures |r| <= |s|
    ensures forall x :: x in r <==> x in s && p(x)
    decreases |s|
  {
    if s == [] then []
    else (if p(s[0]) then [s[0]] else []) + Filter(s[1..], p)
  }

  /** `a` can be obtained from `b` by deleting elements: same relative order. */
  predicate IsSubsequence<T(==)>(a: seq<T>, b: seq<T>)
    decreases |b|
  {
    if a == [] then true
    else if b == [] then false
    else if a[0] == b[0] && IsSubsequence(a[1..], b[1..]) then true
    else IsSubsequence(a, b[1..])
  }

  lemma {:induction false} FilterIsSubsequence<T(!new)>(s: seq<T>, p: T -> bool)
    ensures IsSubsequence(Filter(s, p), s)
    decreases |s|
  {
    if s != [] {
      FilterIsSubsequence(s[1..], p);
      if p(s[0]) {
        assert Filter(s, p)[1..] == Filter(s[1..], p);
      } else {
        assert Filter(s, p) == Filter(s[1..], p);
        EmptyOrSkip(Filter(s, p), s);
      }
    }
  }

  /** Dropping the head of `b` keeps `a` a subsequence when it already was of the tail. */
  lemma EmptyOrSkip<T>(a: seq<T>, b: seq<T>)
    requires b != [] && IsSubsequence(a, b[1..])
    ensures IsSubsequence(a, b)
  {
  }

  /** The filter keeps every occurrence of a passing element and none of a failing one. */
  lemma {:induction false} FilterMultiplicity<T(!new)>(s: seq<T>, p: T -> bool, x: T)
    ensures multiset(Filter(s, p))[x] == if p(x) then multiset(s)[x] else 0
    decreases |s|
  {
    if s != [] {
      FilterMultiplicity(s[1..], p, x);
      assert s == [s[0]] + s[1..];
      assert multiset(s) == multiset([s[0]]) + multiset(s[1..]);
    }
  }

  lemma {:induction false} FilterConcat<T(!new)>(a: seq<T>, b: seq<T>, p: T -> bool)
    ensures Filter(a + b, p) == Filter(a, p) + Filter(b, p)
    decreases |a|
  {
    if a != [] {
      assert (a + b)[1..] == a[1..] + b;
      FilterConcat(a[1..], b, p);
    } else {
      assert a + b == b;
    }
  }

  /** When every element passes, the filter keeps the whole list. */
  lemma {:induction false} FilterKeepsAll<T(!new)>(s: seq<T>, p: T -> bool)
    requires forall i :: 0 <= i < |s| ==> p(s[i])
    ensures Filter(s, p) == s
    decreases |s|
  {
    if s != [] {
      FilterKeepsAll(s[1..], p);
    }
  }

  lemma {:induction false} FilterIdempotent<T(!new)>(s: seq<T>, p: T -> bool)
    ensures Filter(Filter(s, p), p) == Filter(s, p)
  {
    var r := Filter(s, p);
    forall i | 0 <= i < |r| ensures p(r[i]) {
      assert r[i] in r;
    }
    FilterKeepsAll(r, p);
  }

  /** The positions of `s` whose element satisfies `p`. */
  function IndexSet<T>(s: seq<T>, p: T -> bool): set<int> {
    set i | 0 <= i < |s| && p(s[i])
  }

  /** The filter has exactly as many elements as there are positions that pass. */
  lemma {:induction false} FilterLengthIsCount<T(!new)>(s: seq<T>, p: T -> bool)
    ensures |Filter(s, p)| == |IndexSet(s, p)|
    decreases |s|
  {
    if s == [] {
      assert IndexSet(s, p) == {};
    } else {
      var init, last := s[..|s| - 1], s[|s| - 1];
      assert s == init + [last];
      FilterConcat(init, [last], p);
      FilterLengthIsCount(init, p);
      IndexSetSnoc(init, last, p);
    }
  }

  /** Appending one element adds its position to the index set exactly when it passes. */
  lemma IndexSetSnoc<T>(init: seq<T>, last: T, p: T -> bool)
    ensures |IndexSet(init + [last], p)| == |IndexSet(init, p)| + (if p(last) then 1 else 0)
  {
    var s := init + [last];
    var a := IndexSet(init, p);
    if p(last) {
      assert IndexSet(s, p) == a + {|init|} by {
        forall i ensures i in IndexSet(s, p) <==> i in a + {|init|} {
          if 0 <= i < |init| { assert s[i] == init[i]; }
        }
      }
      assert |init| !in a;
    } else {
      assert IndexSet(s, p) == a by {
        forall i ensures i in IndexSet(s, p) <==> i in a {
          if 0 <= i < |init| { assert s[i] == init[i]; }
        }
      }
    }
  }

  // ---- Array.slice with non-negative bounds ----

  /** `s.slice(start, end)` for non-negative `start` and `end`: both bounds are clamped to the length. */
  function Slice<T>(s: seq<T>, start: nat, end: nat): (r: seq<T>)
    ensures |r| <= |s|
    ensures |r| == if start < end && start < |s| then (if end < |s| then end else |s|) - start else 0
    ensures forall k :: 0 <= k < |r| ==> start + k < |s| && r[k] == s[start + k]
  {
    var lo := if start < |s| then start else |s|;
    var hi := if end < |s| then end else |s|;
    if lo < hi then s[lo..hi] else []
  }

  /** `s.slice(page * rowsPerPage, page * rowsPerPage + rowsPerPage)`. */
  function PageOf<T>(s: seq<T>, page: nat, rowsPerPage: nat): (r: seq<T>)
    ensures |r| <= rowsPerPage
    ensures forall k :: 0 <= k < |r| ==> page * rowsPerPage + k < |s| && r[k] == s[page * rowsPerPage + k]
  {
    Slice(s, page * rowsPerPage, page * rowsPerPage + rowsPerPage)
  }

  /** The number of rows on page `page` of a list of `n` rows: full pages, then the rest, then none. */
  function PageLength(n: nat, page: nat, rowsPerPage: nat): nat {
    if page * rowsPerPage >= n then 0
    else if n - page * rowsPerPage < rowsPerPage then n - page * rowsPerPage
    else rowsPerPage
  }

  /** A page holds at most `rowsPerPage` rows, and its k-th row is row `page * rowsPerPage + k` of the list. */
  lemma PageContents<T>(s: seq<T>, page: nat, rowsPerPage: nat)
    ensures |PageOf(s, page, rowsPerPage)| <= rowsPerPage
    ensures |PageOf(s, page, rowsPerPage)| == PageLength(|s|, page, rowsPerPage)
    ensures forall k :: 0 <= k < |PageOf(s, page, rowsPerPage)| ==>
      page * rowsPerPage + k < |s| && PageOf(s, page, rowsPerPage)[k] == s[page * rowsPerPage + k]
  {
  }

  /** Consecutive pages are contiguous: page `n + 1` follows page 0 .. n without overlap or gap. */
  lemma PagesAreContiguous<T>(s: seq<T>, page: nat, rowsPerPage: nat)
    requires (page + 1) * rowsPerPage <= |s|
    ensures s[..page * rowsPerPage] + PageOf(s, page, rowsPerPage) == s[..(page + 1) * rowsPerPage]
  {
    var start := page * rowsPerPage;
    assert start + rowsPerPage == (page + 1) * rowsPerPage;
    assert PageOf(s, page, rowsPerPage) == s[start..start + rowsPerPage];
  }

  /** `s.slice(0, n)`: the first at most `n` elements. */
  function Take<T>(s: seq<T>, n: nat): (r: seq<T>)
    ensures |r| == if |s| < n then |s| else n
    ensures r == s[..|r|]
  {
    Slice(s, 0, n)
  }

  // ---- lookup and update by key ----

  /** `findIndex(x => key(x) === k)`, with `-1` written as `None`. */
  function FirstIndex<T, K(==)>(s: seq<T>, key: T -> K, k: K): (r: Option<nat>)
    ensures r.Some? ==> r.value < |s| && key(s[r.value]) == k
    ensures r.Some? ==> forall j :: 0 <= j < r.value ==> key(s[j]) != k
    ensures r.None? ==> forall j :: 0 <= j < |s| ==> key(s[j]) != k
    decreases |s|
  {
    if s == [] then None
    else if key(s[0]) == k then Some(0)
    else match FirstIndex(s[1..], key, k)
      case None => None
      case Some(i) => Some(i + 1)
  }

  /** `i = findIndex(...); if (i !== -1) s[i] = v`: only the first element with key `k` is replaced. */
  function ReplaceFirst<T, K(==)>(s: seq<T>, key: T -> K, k: K, v: T): (r: seq<T>)
    ensures |r| == |s|
    ensures (forall j :: 0 <= j < |s| ==> key(s[j]) != k) ==> r == s
    ensures forall i :: 0 <= i < |s| && key(s[i]) == k && (forall j :: 0 <= j < i ==> key(s[j]) != k) ==>
      r == s[i := v]
  {
    match FirstIndex(s, key, k)
    case None => s
    case Some(i) => s[i := v]
  }

  /** `s.map(x => key(x) === k ? v : x)`: every element with key `k` is replaced. */
  function ReplaceAll<T, K(==)>(s: seq<T>, key: T -> K, k: K, v: T): (r: seq<T>)
    ensures |r| == |s|
    ensures forall i :: 0 <= i < |s| ==> r[i] == if key(s[i]) == k then v else s[i]
  {
    seq(|s|, i requires 0 <= i < |s| => if key(s[i]) == k then v else s[i])
  }

  /** `s.filter(x => key(x) !== k)`. */
  function RemoveKey<T(!new), K(==)>(s: seq<T>, key: T -> K, k: K): (r: seq<T>)
    ensures forall x :: x in r <==> x in s && key(x) != k
    ensures IsSubsequence(r, s)
  {
    FilterIsSubsequence(s, x => key(x) != k);
    Filter(s, x => key(x) != k)
  }

  /** Removing a key that no element carries changes nothing. */
  lemma RemoveAbsentKey<T(!new), K>(s: seq<T>, key: T -> K, k: K)
    requires forall i :: 0 <= i < |s| ==> key(s[i]) != k
    ensures RemoveKey(s, key, k) == s
  {
    FilterKeepsAll(s, x => key(x) != k);
  }

  /** Removing by key twice is the same as removing once. */
  lemma RemoveKeyIdempotent<T(!new), K>(s: seq<T>, key: T -> K, k: K)
    ensures RemoveKey(RemoveKey(s, key, k), key, k) == RemoveKey(s, key, k)
  {
    var r := RemoveKey(s, key, k);
    forall i | 0 <= i < |r| ensures key(r[i]) != k {
      assert r[i] in r;
    }
    RemoveAbsentKey(r, key, k);
  }

  /** Elements with another key survive a removal with their multiplicity; those with key `k` are all gone. */
  lemma RemoveKeyMultiplicity<T(!new), K>(s: seq<T>, key: T -> K, k: K, x: T)
    ensures multiset(RemoveKey(s, key, k))[x] == if key(x) != k then multiset(s)[x] else 0
  {
    FilterMultiplicity(s, y => key(y) != k, x);
  }

  /** Overwriting an element with another of the same key does not change what a removal by that key leaves. */
  lemma {:induction false} FilterAfterOverwrite<T(!new)>(s: seq<T>, p: T -> bool, i: nat, v: T)
    requires i < |s| && !p(s[i]) && !p(v)
    ensures Filter(s[i := v], p) == Filter(s, p)
    decreases |s|
  {
    if i > 0 {
      assert s[i := v][1..] == s[1..][i - 1 := v];
      FilterAfterOverwrite(s[1..], p, i - 1, v);
    } else {
      assert s[i := v][1..] == s[1..];
    }
  }

  /** Replacing the element with key `k` and then removing key `k` is the same as removing it straight away. */
  lemma RemoveKeyAfterReplaceFirst<T(!new), K>(s: seq<T>, key: T -> K, k: K, v: T)
    requires key(v) == k
    ensures RemoveKey(ReplaceFirst(s, key, k, v), key, k) == RemoveKey(s, key, k)
  {
    match FirstIndex(s, key, k)
    case None =>
    case Some(i) => FilterAfterOverwrite(s, x => key(x) != k, i, v);
  }

  /** The same for `map`-style replacement of every element with key `k`. */
  lemma {:induction false} RemoveKeyAfterReplaceAll<T(!new), K>(s: seq<T>, key: T -> K, k: K, v: T)
    requires key(v) == k
    ensures RemoveKey(ReplaceAll(s, key, k, v), key, k) == RemoveKey(s, key, k)
    decreases |s|
  {
    if s != [] {
      assert ReplaceAll(s, key, k, v)[1..] == ReplaceAll(s[1..], key, k, v);
      RemoveKeyAfterReplaceAll(s[1..], key, k, v);
    }
  }

  /** Appending an element with key `k` and then removing key `k` is the same as removing it straight away. */
  lemma RemoveKeyAfterAppend<T(!new), K>(s: seq<T>, key: T -> K, k: K, v: T)
    requires key(v) == k
    ensures RemoveKey(s + [v], key, k) == RemoveKey(s, key, k)
  {
    FilterConcat(s, [v], x => key(x) != k);
    assert Filter([v], x => key(x) != k) == Filter([v][1..], x => key(x) != k);
  }

  /** The first element a filter keeps is the element at the first index that passes. */
  lemma {:induction false} FilterHeadIsFirst<T(!new)>(s: seq<T>, p: T -> bool)
    ensures Filter(s, p) != [] <==> FirstIndex(s, p, true).Some?
    ensures Filter(s, p) != [] ==> Filter(s, p)[0] == s[FirstIndex(s, p, true).value]
    decreases |s|
  {
    if s != [] && !p(s[0]) {
      FilterHeadIsFirst(s[1..], p);
    }
  }
}
