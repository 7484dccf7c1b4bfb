/** Generic sequence operations that the source expresses with `find`, `filter`,
    `new Set(...)`, a stable `sort` and `slice`. */
module Seqs {
  import opened Types

  /** Position of the first element satisfying `p` (the source's `Array.find`). */
  function FindIndex<T>(s: seq<T>, p: T -> bool): (r: Option<nat>)
    ensures r.Some? ==> r.value < |s| && p(s[r.value])
    ensures r.Some? ==> forall j :: 0 <= j < r.value ==> !p(s[j])
    ensures r.None? <==> forall j :: 0 <= j < |s| ==> !p(s[j])
  {
    if |s| == 0 then None
    else if p(s[0]) then Some(0)
    else match FindIndex(s[1..], p)
      case None => None
      case Some(i) => Some(i + 1)
  }

  /** The elements satisfying `p`, in their original order (the source's `Array.filter`). */
  function Filter<T(==,!new)>(s: seq<T>, p: T -> bool): (r: seq<T>)
    ensures |r| <= |s|
    ensures forall x :: x in r <==> x in s && p(x)
    ensures forall x :: multiset(r)[x] == if p(x) then multiset(s)[x] else 0
  {
    if s == [] then []
    else
      assert s == [s[0]] + s[1..];
      (if p(s[0]) then [s[0]] else []) + Filter(s[1..], p)
  }

  /** `a` occurs in `b` with its order kept (greedy matching decides this). */
  predicate Subsequence<T(==)>(a: seq<T>, b: seq<T>)
    decreases |b|
  {
    if a == [] then true
    else if b == [] then false
    else if a[0] == b[0] then Subsequence(a[1..], b[1..])
    else Subsequence(a, b[1..])
  }

  /** Filtering keeps the relative order of what it keeps. */
  lemma {:induction false} FilterIsSubsequence<T(!new)>(s: seq<T>, p: T -> bool)
    ensures Subsequence(Filter(s, p), s)
  {
    if s != [] {
      FilterIsSubsequence(s[1..], p);
      if p(s[0]) {
        assert Filter(s, p) == [s[0]] + Filter(s[1..], p);
        assert Filter(s, p)[1..] == Filter(s[1..], p);
      } else {
        assert Filter(s, p) == Filter(s[1..], p);
      }
    }
  }

  /** A filter every element passes returns the sequence itself. */
  lemma {:induction false} FilterAll<T(!new)>(s: seq<T>, p: T -> bool)
    requires forall i :: 0 <= i < |s| ==> p(s[i])
    ensures Filter(s, p) == s
  {
    if s != [] {
      FilterAll(s[1..], p);
    }
  }

  /** No element occurs twice. */
  predicate Distinct<T(==)>(s: seq<T>) {
    forall i, j :: 0 <= i < j < |s| ==> s[i] != s[j]
  }

  /** Position of the first occurrence of `x`. */
  function FirstIndexOf<T(==)>(s: seq<T>, x: T): (r: nat)
    requires x in s
    ensures r < |s| && s[r] == x
    ensures forall j :: 0 <= j < r ==> s[j] != x
  {
    if s[0] == x then 0 else 1 + FirstIndexOf(s[1..], x)
  }

  /** Appending at the end does not move a first occurrence. */
  lemma {:induction false} FirstIndexOfAppend<T>(s: seq<T>, a: T, x: T)
    requires x in s
    ensures x in s + [a] && FirstIndexOf(s + [a], x) == FirstIndexOf(s, x)
  {
    var i := FirstIndexOf(s, x);
    var t := s + [a];
    assert t[i] == x;
    var k := FirstIndexOf(t, x);
    assert forall j :: 0 <= j < i ==> t[j] != x;
  }

  /** In a distinct sequence the first occurrence is the only one. */
  lemma DistinctIndex<T>(s: seq<T>, i: nat)
    requires Distinct(s) && i < |s|
    ensures FirstIndexOf(s, s[i]) == i
  {
  }

  /** The distinct elements of `s` in order of first appearance: the iteration
      order of a JavaScript `Set` or of an object's insertion-ordered keys. */
  function Dedup<T(==,!new)>(s: seq<T>): (r: seq<T>)
    ensures Distinct(r)
    ensures forall x :: x in r <==> x in s
    ensures |r| <= |s|
  {
    if s == [] then []
    else
      var d := Dedup(s[..|s| - 1]);
      var x := s[|s| - 1];
      assert s == s[..|s| - 1] + [x];
      if x in d then d else d + [x]
  }

  /** `Dedup` lists elements in the order of their first occurrence in `s`. */
  lemma {:induction false} DedupOrder<T(!new)>(s: seq<T>, i: nat, j: nat)
    requires i < j < |Dedup(s)|
    ensures FirstIndexOf(s, Dedup(s)[i]) < FirstIndexOf(s, Dedup(s)[j])
  {
    var init := s[..|s| - 1];
    var x := s[|s| - 1];
    assert s == init + [x];
    var d := Dedup(init);
    if x in d {
      assert Dedup(s) == d;
      DedupOrder(init, i, j);
      FirstIndexOfAppend(init, x, d[i]);
      FirstIndexOfAppend(init, x, d[j]);
    } else {
      assert Dedup(s) == d + [x];
      if j < |d| {
        DedupOrder(init, i, j);
        FirstIndexOfAppend(init, x, d[i]);
        FirstIndexOfAppend(init, x, d[j]);
      } else {
        assert Dedup(s)[j] == x && x !in init;
        assert FirstIndexOf(s, x) == |s| - 1;
        FirstIndexOfAppend(init, x, d[i]);
      }
    }
  }

  /** `DedupOrder` for every pair of positions at once. */
  lemma DedupFirstSeen<T(!new)>(s: seq<T>)
    ensures forall i, j :: 0 <= i < j < |Dedup(s)| ==>
              Dedup(s)[i] in s && Dedup(s)[j] in s &&
              FirstIndexOf(s, Dedup(s)[i]) < FirstIndexOf(s, Dedup(s)[j])
  {
    var d := Dedup(s);
    forall i, j | 0 <= i < j < |d|
      ensures d[i] in s && d[j] in s && FirstIndexOf(s, d[i]) < FirstIndexOf(s, d[j])
    {
      assert d[i] in d && d[j] in d;
      DedupOrder(s, i, j);
    }
  }

  /** The set of values `f` takes on `s` (the size of `new Set(s.map(f))`). */
  function Image<T, U>(s: seq<T>, f: T -> U): (r: set<U>)
    ensures |r| <= |s|
    ensures forall i :: 0 <= i < |s| ==> f(s[i]) in r
    ensures forall y :: y in r ==> exists i :: 0 <= i < |s| && f(s[i]) == y
  {
    if s == [] then {}
    else
      var rest := Image(s[1..], f);
      ImageStep(s, f, rest);
      {f(s[0])} + rest
  }

  /** Adding the first element's value to the image of the tail gives the image
      of the whole sequence. */
  lemma ImageStep<T, U>(s: seq<T>, f: T -> U, rest: set<U>)
    requires s != [] && |rest| <= |s| - 1
    requires forall i :: 0 <= i < |s| - 1 ==> f(s[1..][i]) in rest
    requires forall y :: y in rest ==> exists i :: 0 <= i < |s| - 1 && f(s[1..][i]) == y
    ensures |{f(s[0])} + rest| <= |s|
    ensures forall i :: 0 <= i < |s| ==> f(s[i]) in {f(s[0])} + rest
    ensures forall y :: y in {f(s[0])} + rest ==> exists i :: 0 <= i < |s| && f(s[i]) == y
  {
    forall i | 0 < i < |s| ensures f(s[i]) in rest {
      assert s[1..][i - 1] == s[i];
    }
    forall y | y in rest ensures exists i :: 0 <= i < |s| && f(s[i]) == y {
      var k :| 0 <= k < |s| - 1 && f(s[1..][k]) == y;
      assert f(s[k + 1]) == y;
    }
  }

  /** Non-increasing by `key`. */
  predicate SortedDesc<T>(s: seq<T>, key: T -> int) {
    forall i, j :: 0 <= i < j < |s| ==> key(s[i]) >= key(s[j])
  }

  /** Puts `x` after every element whose key is at least its own. */
  function InsertDesc<T>(x: T, s: seq<T>, key: T -> int): (r: seq<T>)
    ensures |r| == |s| + 1
    ensures multiset(r) == multiset(s) + multiset{x}
  {
    if s == [] then [x]
    else if key(s[0]) >= key(x) then
      assert s == [s[0]] + s[1..];
      [s[0]] + InsertDesc(x, s[1..], key)
    else [x] + s
  }

  /** Inserting into a sorted sequence keeps it sorted. */
  lemma {:induction false} InsertDescSorted<T>(x: T, s: seq<T>, key: T -> int)
    requires SortedDesc(s, key)
    ensures SortedDesc(InsertDesc(x, s, key), key)
  {
    if s != [] && key(s[0]) >= key(x) {
      var t := InsertDesc(x, s[1..], key);
      InsertDescSorted(x, s[1..], key);
      forall i | 0 <= i < |s[1..]| ensures key(s[1..][i]) <= key(s[0]) {
        assert s[1..][i] == s[i + 1];
      }
      InsertDescBound(x, s[1..], key, key(s[0]));
      assert InsertDesc(x, s, key) == [s[0]] + t;
      ConsSorted(s[0], t, key);
    }
  }

  /** Prepending an element under a bound to elements under it stays under it. */
  lemma ConsBound<T>(a: T, t: seq<T>, key: T -> int, b: int)
    requires key(a) <= b && forall j :: 0 <= j < |t| ==> key(t[j]) <= b
    ensures forall j :: 0 <= j < |[a] + t| ==> key(([a] + t)[j]) <= b
  {
    var r := [a] + t;
    forall j | 0 <= j < |r| ensures key(r[j]) <= b {
      if j > 0 {
        assert r[j] == t[j - 1];
      }
    }
  }

  /** An element no smaller than everything after it keeps a sorted sequence sorted. */
  lemma ConsSorted<T>(a: T, t: seq<T>, key: T -> int)
    requires SortedDesc(t, key) && forall j :: 0 <= j < |t| ==> key(t[j]) <= key(a)
    ensures SortedDesc([a] + t, key)
  {
    var r := [a] + t;
    forall i, j | 0 <= i < j < |r| ensures key(r[i]) >= key(r[j]) {
      assert r[j] == t[j - 1];
      if i > 0 {
        assert r[i] == t[i - 1];
      }
    }
  }

  /** Inserting an element under a bound into elements under it stays under it. */
  lemma {:induction false} InsertDescBound<T>(x: T, s: seq<T>, key: T -> int, b: int)
    requires key(x) <= b && forall i :: 0 <= i < |s| ==> key(s[i]) <= b
    ensures forall j :: 0 <= j < |InsertDesc(x, s, key)| ==> key(InsertDesc(x, s, key)[j]) <= b
  {
    if s != [] && key(s[0]) >= key(x) {
      var t := InsertDesc(x, s[1..], key);
      forall i | 0 <= i < |s[1..]| ensures key(s[1..][i]) <= b {
        assert s[1..][i] == s[i + 1];
      }
      InsertDescBound(x, s[1..], key, b);
      assert InsertDesc(x, s, key) == [s[0]] + t;
      ConsBound(s[0], t, key, b);
    } else if s != [] {
      assert InsertDesc(x, s, key) == [x] + s;
      ConsBound(x, s, key, b);
    }
  }

  /** A stable sort by non-increasing key: the source's
      `sort((a, b) => key(b) - key(a))`, which keeps equal keys in their original
      order (`SortDescStable`). */
  function SortDesc<T>(s: seq<T>, key: T -> int): (r: seq<T>)
    ensures |r| == |s|
    ensures multiset(r) == multiset(s)
    ensures SortedDesc(r, key)
  {
    if s == [] then []
    else
      assert s == s[..|s| - 1] + [s[|s| - 1]];
      InsertDescSorted(s[|s| - 1], SortDesc(s[..|s| - 1], key), key);
      InsertDesc(s[|s| - 1], SortDesc(s[..|s| - 1], key), key)
  }

  /** The elements of `s` whose key is `v`, in their order in `s`. */
  function WithKey<T>(s: seq<T>, key: T -> int, v: int): seq<T> {
    if s == [] then []
    else (if key(s[0]) == v then [s[0]] else []) + WithKey(s[1..], key, v)
  }

  /** No element has key `v`, so none is kept. */
  lemma {:induction false} WithKeyNone<T>(s: seq<T>, key: T -> int, v: int)
    requires forall i :: 0 <= i < |s| ==> key(s[i]) != v
    ensures WithKey(s, key, v) == []
  {
    if s != [] {
      assert forall i :: 0 <= i < |s[1..]| ==> s[1..][i] == s[i + 1];
      WithKeyNone(s[1..], key, v);
    }
  }

  /** Selecting by key distributes over concatenation. */
  lemma {:induction false} WithKeyAppend<T>(a: seq<T>, b: seq<T>, key: T -> int, v: int)
    ensures WithKey(a + b, key, v) == WithKey(a, key, v) + WithKey(b, key, v)
  {
    if a != [] {
      assert (a + b)[0] == a[0] && (a + b)[1..] == a[1..] + b;
      WithKeyAppend(a[1..], b, key, v);
    } else {
      assert a + b == b;
    }
  }

  /** The tail of a sorted sequence is sorted. */
  lemma SortedTail<T>(t: seq<T>, key: T -> int)
    requires t != [] && SortedDesc(t, key)
    ensures SortedDesc(t[1..], key)
  {
    forall i, j | 0 <= i < j < |t[1..]| ensures key(t[1..][i]) >= key(t[1..][j]) {
      assert t[1..][i] == t[i + 1] && t[1..][j] == t[j + 1];
    }
  }

  /** Selecting by key from a sequence with a given first element. */
  lemma WithKeyCons<T>(a: T, t: seq<T>, key: T -> int, v: int)
    ensures WithKey([a] + t, key, v) == (if key(a) == v then [a] else []) + WithKey(t, key, v)
  {
    assert ([a] + t)[0] == a && ([a] + t)[1..] == t;
  }

  /** Every element of a sorted sequence is bounded by its first. */
  lemma SortedBelow<T>(t: seq<T>, key: T -> int, b: int)
    requires t != [] && SortedDesc(t, key) && key(t[0]) < b
    ensures forall i :: 0 <= i < |t| ==> key(t[i]) != b
  {
    forall i | 0 <= i < |t| ensures key(t[i]) != b {
      assert i == 0 || key(t[0]) >= key(t[i]);
    }
  }

  /** The two ways `InsertDesc` places `x` in a non-empty sequence. */
  lemma InsertDescFront<T>(x: T, t: seq<T>, key: T -> int)
    requires t != []
    ensures key(t[0]) >= key(x) ==> InsertDesc(x, t, key) == [t[0]] + InsertDesc(x, t[1..], key)
    ensures key(t[0]) < key(x) ==> InsertDesc(x, t, key) == [x] + t
  {
  }

  /** A common first element keeps the same place among its key. */
  lemma WithKeyPast<T>(t: seq<T>, rest: seq<T>, tail: seq<T>, key: T -> int, v: int)
    requires t != [] && WithKey(rest, key, v) == WithKey(t[1..], key, v) + tail
    ensures WithKey([t[0]] + rest, key, v) == WithKey(t, key, v) + tail
  {
    var head := if key(t[0]) == v then [t[0]] else [];
    WithKeyCons(t[0], rest, key, v);
    assert head + (WithKey(t[1..], key, v) + tail) == (head + WithKey(t[1..], key, v)) + tail;
  }

  /** Inserting `x` into a sorted sequence puts it after every element with its
      key, so among those elements it comes last. */
  lemma {:induction false} InsertDescStable<T>(x: T, t: seq<T>, key: T -> int, v: int)
    requires SortedDesc(t, key)
    ensures WithKey(InsertDesc(x, t, key), key, v)
            == WithKey(t, key, v) + (if key(x) == v then [x] else [])
  {
    if t == [] {
      assert WithKey([x], key, v) == (if key(x) == v then [x] else []) + WithKey([], key, v);
    } else if key(t[0]) >= key(x) {
      var rest := InsertDesc(x, t[1..], key);
      InsertDescFront(x, t, key);
      SortedTail(t, key);
      InsertDescStable(x, t[1..], key, v);
      WithKeyPast(t, rest, if key(x) == v then [x] else [], key, v);
    } else {
      InsertDescFront(x, t, key);
      WithKeyCons(x, t, key, v);
      if key(x) == v {
        SortedBelow(t, key, v);
        WithKeyNone(t, key, v);
      }
    }
  }

  /** `SortDesc` is stable: the elements with any one key keep their original order. */
  lemma {:induction false} SortDescStable<T>(s: seq<T>, key: T -> int, v: int)
    ensures WithKey(SortDesc(s, key), key, v) == WithKey(s, key, v)
  {
    if s != [] {
      var init, last := s[..|s| - 1], s[|s| - 1];
      assert s == init + [last];
      SortDescStable(init, key, v);
      InsertDescStable(last, SortDesc(init, key), key, v);
      WithKeyAppend(init, [last], key, v);
      WithKeyCons(last, [], key, v);
      assert [last] + [] == [last];
    }
  }

  /** The first `k` elements of `s` (the source's `slice(0, k)`). */
  function Take<T>(s: seq<T>, k: nat): (r: seq<T>)
    ensures |r| <= k && |r| <= |s|
    ensures |s| >= k ==> |r| == k
    ensures |s| <= k ==> r == s
    ensures forall i :: 0 <= i < |r| ==> r[i] == s[i]
  {
    if |s| <= k then s else s[..k]
  }

  /** In a sorted sequence, every element outside the first `k` has a key no
      larger than any element among the first `k`. */
  lemma TopDominates<T>(s: seq<T>, key: T -> int, k: nat, x: T)
    requires SortedDesc(s, key)
    requires x in s && x !in Take(s, k)
    ensures |Take(s, k)| == k
    ensures forall y :: y in Take(s, k) ==> key(y) >= key(x)
  {
    var n :| 0 <= n < |s| && s[n] == x;
    assert n < |Take(s, k)| ==> x in Take(s, k);
    forall y | y in Take(s, k) ensures key(y) >= key(x) {
      var m :| 0 <= m < |Take(s, k)| && Take(s, k)[m] == y;
    }
  }

  /** In a sorted sequence, an element with a copy outside the first `k` has a
      key no larger than any element among the first `k`. */
  lemma TopDominatesCopies<T>(s: seq<T>, key: T -> int, k: nat, x: T)
    requires SortedDesc(s, key)
    requires multiset(Take(s, k))[x] < multiset(s)[x]
    ensures |Take(s, k)| == k
    ensures forall y :: y in Take(s, k) ==> key(y) >= key(x)
  {
    if |s| > k {
      assert s == s[..k] + s[k..];
      assert x in multiset(s[k..]);
      var j :| 0 <= j < |s[k..]| && s[k..][j] == x;
      assert s[k + j] == x;
      forall y | y in Take(s, k) ensures key(y) >= key(x) {
        var m :| 0 <= m < |Take(s, k)| && Take(s, k)[m] == y;
      }
    }
  }

  /** Removing the element at `j` removes one copy of it from the multiset. */
  lemma RemoveOne<T>(s: seq<T>, j: nat)
    requires j < |s|
    ensures multiset(s[..j] + s[j + 1..]) == multiset(s) - multiset{s[j]}
  {
    assert s == s[..j] + [s[j]] + s[j + 1..];
  }

  /** Where the head of `a` sits in a permutation `b` of it, and that the rest
      of `a` is a permutation of `b` without that position. */
  lemma PermutationTail<T>(a: seq<T>, b: seq<T>) returns (j: nat)
    requires a != [] && multiset(a) == multiset(b)
    ensures j < |b| && b[j] == a[0]
    ensures multiset(a[1..]) == multiset(b[..j] + b[j + 1..])
  {
    assert a[0] in multiset(b);
    j := FirstIndexOf(b, a[0]);
    RemoveOne(b, j);
    assert a == [a[0]] + a[1..];
    assert multiset(a) == multiset{a[0]} + multiset(a[1..]);
  }

  /** Total multiplicity in `ms` of the elements listed in `ks`. */
  function CountSum<T>(ks: seq<T>, ms: multiset<T>): nat {
    if ks == [] then 0 else ms[ks[0]] + CountSum(ks[1..], ms)
  }

  lemma {:induction false} CountSumAppend<T>(ks: seq<T>, k: T, ms: multiset<T>)
    ensures CountSum(ks + [k], ms) == CountSum(ks, ms) + ms[k]
  {
    if ks != [] {
      assert (ks + [k])[1..] == ks[1..] + [k];
      CountSumAppend(ks[1..], k, ms);
    } else {
      assert ([k])[1..] == [];
    }
  }

  /** One more copy of `x` adds one to the total exactly when `x` is listed. */
  lemma {:induction false} CountSumAdd<T>(ks: seq<T>, ms: multiset<T>, x: T)
    requires Distinct(ks)
    ensures CountSum(ks, ms + multiset{x}) == CountSum(ks, ms) + if x in ks then 1 else 0
  {
    if ks != [] {
      assert Distinct(ks[1..]);
      CountSumAdd(ks[1..], ms, x);
      assert x in ks <==> x == ks[0] || x in ks[1..];
      assert x == ks[0] ==> x !in ks[1..];
    }
  }

  /** Counting each distinct element of `s` as often as it occurs covers `s` exactly once. */
  lemma {:induction false} DedupCountSum<T(!new)>(s: seq<T>)
    ensures CountSum(Dedup(s), multiset(s)) == |s|
    decreases |s|
  {
    if s != [] {
      var init := s[..|s| - 1];
      var x := s[|s| - 1];
      assert s == init + [x];
      assert multiset(s) == multiset(init) + multiset{x};
      var d := Dedup(init);
      DedupCountSum(init);
      CountSumAdd(d, multiset(init), x);
      if x !in d {
        assert Dedup(s) == d + [x];
        CountSumAppend(d, x, multiset(s));
        assert multiset(init)[x] == 0;
      }
    }
  }

  /** Appending an element extends `Dedup` by it exactly when it is new. */
  lemma DedupSnoc<T(!new)>(s: seq<T>, x: T)
    ensures Dedup(s + [x]) == if x in s then Dedup(s) else Dedup(s) + [x]
  {
    assert (s + [x])[..|s + [x]| - 1] == s;
  }

  /** A value at two positions occurs at least twice. */
  lemma CountTwo<T>(s: seq<T>, i: nat, j: nat)
    requires i < j < |s| && s[i] == s[j]
    ensures multiset(s)[s[i]] >= 2
  {
    assert s == s[..j] + [s[j]] + s[j + 1..];
    assert s[..j][i] == s[i];
  }

  /** In a sequence without repeats nothing occurs twice. */
  lemma {:induction false} DistinctCountOne<T>(s: seq<T>, x: T)
    requires Distinct(s)
    ensures multiset(s)[x] <= 1
  {
    if s != [] {
      assert s == [s[0]] + s[1..];
      assert Distinct(s[1..]);
      DistinctCountOne(s[1..], x);
      assert s[0] !in s[1..];
    }
  }

  /** Reordering keeps a sequence free of repeats. */
  lemma DistinctPermutation<T>(a: seq<T>, b: seq<T>)
    requires Distinct(a) && multiset(a) == multiset(b)
    ensures Distinct(b)
  {
    forall i, j | 0 <= i < j < |b|
      ensures b[i] != b[j]
    {
      if b[i] == b[j] {
        CountTwo(b, i, j);
        DistinctCountOne(a, b[i]);
      }
    }
  }

  /** Two filters that no element passes together keep at most `|s|` elements between them. */
  lemma {:induction false} FilterDisjoint<T(!new)>(s: seq<T>, p: T -> bool, q: T -> bool)
    requires forall i :: 0 <= i < |s| ==> !(p(s[i]) && q(s[i]))
    ensures |Filter(s, p)| + |Filter(s, q)| <= |s|
  {
    if s != [] {
      FilterDisjoint(s[1..], p, q);
      assert Filter(s, p) == (if p(s[0]) then [s[0]] else []) + Filter(s[1..], p);
      assert Filter(s, q) == (if q(s[0]) then [s[0]] else []) + Filter(s[1..], q);
    }
  }

  /** A prefix of a sorted sequence is sorted. */
  lemma TakeSorted<T>(s: seq<T>, key: T -> int, k: nat)
    requires SortedDesc(s, key)
    ensures SortedDesc(Take(s, k), key)
  {
  }

  /** A prefix holds no more copies of anything than the whole sequence. */
  lemma TakeSubmultiset<T>(s: seq<T>, k: nat)
    ensures multiset(Take(s, k)) <= multiset(s)
  {
    if |s| > k {
      assert s == s[..k] + s[k..];
    }
  }

  /** The first `k` of a sorted copy of `s`: sorted, drawn from `s` without
      extra copies, and `k` long unless `s` is shorter. */
  lemma TopOfSorted<T>(s: seq<T>, key: T -> int, k: nat)
    ensures var r := Take(SortDesc(s, key), k);
            && |r| == (if |s| < k then |s| else k)
            && SortedDesc(r, key)
            && multiset(r) <= multiset(s)
            && forall i :: 0 <= i < |r| ==> r[i] in s
  {
    var sorted := SortDesc(s, key);
    var r := Take(sorted, k);
    TakeSorted(sorted, key, k);
    TakeSubmultiset(sorted, k);
    forall i | 0 <= i < |r|
      ensures r[i] in s
    {
      assert r[i] in multiset(r);
    }
  }

  /** Filtering distributes over concatenation. */
  lemma {:induction false} FilterAppend<T(!new)>(a: seq<T>, b: seq<T>, p: T -> bool)
    ensures Filter(a + b, p) == Filter(a, p) + Filter(b, p)
  {
    if a == [] {
      assert a + b == b;
    } else {
      var head := if p(a[0]) then [a[0]] else [];
      var ab := a + b;
      assert ab[0] == a[0] && ab[1..] == a[1..] + b;
      calc {
        Filter(ab, p);
        head + Filter(a[1..] + b, p);
        { FilterAppend(a[1..], b, p); }
        head + (Filter(a[1..], p) + Filter(b, p));
        (head + Filter(a[1..], p)) + Filter(b, p);
        Filter(a, p) + Filter(b, p);
      }
    }
  }
}
