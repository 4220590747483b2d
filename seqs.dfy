/**
 * Sequence operations the pages use through `Array.prototype`: `filter`,
 * counting occurrences into an object (`reduce`), the distinct values in
 * first-occurrence order (the key order of that object), `slice(-n)` and the
 * stable `sort` with a descending numeric comparator.
 */
module Seqs {

  /** `s.filter(p)`. */
  function Filter<T>(s: seq<T>, p: T -> bool): (r: seq<T>)
    ensures |r| <= |s|
    ensures forall i :: 0 <= i < |r| ==> p(r[i])
  {
    if s == [] then [] else (if p(s[0]) then [s[0]] else []) + Filter(s[1..], p)
  }

  /** An element is kept exactly when it was there and satisfies the predicate. */
  lemma {:induction false} FilterMembership<T>(s: seq<T>, p: T -> bool, x: T)
    ensures x in Filter(s, p) <==> x in s && p(x)
  {
    if s != [] {
      FilterMembership(s[1..], p, x);
      assert s == [s[0]] + s[1..];
    }
  }

  /** Filtering keeps everything exactly when every element satisfies the predicate. */
  lemma {:induction false} FilterKeepsAll<T>(s: seq<T>, p: T -> bool)
    requires forall i :: 0 <= i < |s| ==> p(s[i])
    ensures Filter(s, p) == s
  {
    if s != [] {
      FilterKeepsAll(s[1..], p);
    }
  }

  /** Two successive filters are one filter by the conjunction. */
  lemma {:induction false} FilterCompose<T>(s: seq<T>, p: T -> bool, q: T -> bool, both: T -> bool)
    requires forall x :: both(x) == (p(x) && q(x))
    ensures Filter(Filter(s, p), q) == Filter(s, both)
  {
    if s != [] {
      FilterCompose(s[1..], p, q, both);
      var rest := Filter(s[1..], p);
      if p(s[0]) {
        assert Filter(s, p) == [s[0]] + rest;
        assert ([s[0]] + rest)[1..] == rest;
      } else {
        assert Filter(s, p) == rest;
      }
    }
  }

  /** Filters that agree on every element give the same result. */
  lemma {:induction false} FilterExtensional<T>(s: seq<T>, p: T -> bool, q: T -> bool)
    requires forall i :: 0 <= i < |s| ==> p(s[i]) == q(s[i])
    ensures Filter(s, p) == Filter(s, q)
  {
    if s != [] {
      FilterExtensional(s[1..], p, q);
    }
  }

  /** `r` is `s` with some elements left out and the rest in their order. */
  predicate Subsequence<T(==)>(r: seq<T>, s: seq<T>)
    decreases |s|
  {
    if r == [] then true
    else if s == [] then false
    else (r[0] == s[0] && Subsequence(r[1..], s[1..])) || Subsequence(r, s[1..])
  }

  lemma {:induction false} FilterSubsequence<T>(s: seq<T>, p: T -> bool)
    ensures Subsequence(Filter(s, p), s)
  {
    if s != [] {
      FilterSubsequence(s[1..], p);
      var r := Filter(s, p);
      if p(s[0]) {
        assert r[0] == s[0] && r[1..] == Filter(s[1..], p);
      } else {
        assert r == Filter(s[1..], p);
      }
    }
  }

  /** Keeping or dropping the head of `s` before a subsequence of its tail gives a subsequence of `s`. */
  lemma SubsequenceCons<T>(s: seq<T>, keep: bool, rest: seq<T>)
    requires s != [] && Subsequence(rest, s[1..])
    ensures Subsequence((if keep then [s[0]] else []) + rest, s)
  {
    var r := (if keep then [s[0]] else []) + rest;
    if keep {
      assert r[0] == s[0] && r[1..] == rest;
    } else {
      assert r == rest;
    }
  }

  /** Filtering keeps every copy of an element that satisfies the predicate, and no copy of one that does not. */
  lemma {:induction false} FilterCount<T>(s: seq<T>, p: T -> bool, x: T)
    ensures Count(Filter(s, p), x) == if p(x) then Count(s, x) else 0
  {
    if s != [] {
      FilterCount(s[1..], p, x);
      assert s == [s[0]] + s[1..];
      assert multiset(s) == multiset([s[0]]) + multiset(s[1..]);
      var head := if p(s[0]) then [s[0]] else [];
      assert multiset(Filter(s, p)) == multiset(head) + multiset(Filter(s[1..], p));
    }
  }

  /** `s` without any occurrence of `y`. */
  function Remove<T(==)>(s: seq<T>, y: T): seq<T> {
    Filter(s, x => x != y)
  }

  /** `s` without any element of `removed`. */
  function Minus<T(==)>(s: seq<T>, removed: seq<T>): seq<T> {
    Filter(s, x => x !in removed)
  }

  /** Removing the elements of `r` and then `y` is removing the elements of `r + [y]`. */
  lemma {:induction false} RemoveAfterMinus<T>(s: seq<T>, r: seq<T>, y: T)
    ensures Remove(Minus(s, r), y) == Minus(s, r + [y])
  {
    if s != [] {
      RemoveAfterMinus(s[1..], r, y);
      var rest := Minus(s[1..], r);
      assert (s[0] in r + [y]) <==> (s[0] in r || s[0] == y);
      if s[0] !in r {
        assert Minus(s, r) == [s[0]] + rest;
        assert ([s[0]] + rest)[1..] == rest;
        assert Remove([s[0]] + rest, y) == (if s[0] != y then [s[0]] else []) + Remove(rest, y);
      } else {
        assert Minus(s, r) == rest;
        assert Minus(s, r + [y]) == Minus(s[1..], r + [y]);
      }
    }
  }

  /** Removing every element of `s` leaves nothing. */
  lemma {:induction false} MinusAll<T>(s: seq<T>, r: seq<T>)
    requires forall i :: 0 <= i < |s| ==> s[i] in r
    ensures Minus(s, r) == []
  {
    if s != [] {
      MinusAll(s[1..], r);
    }
  }

  /** An element survives `Remove(s, y)` exactly when it is in `s` and is not `y`. */
  lemma RemoveMembership<T>(s: seq<T>, y: T, x: T)
    ensures x in Remove(s, y) <==> x in s && x != y
  {
    FilterMembership(s, z => z != y, x);
  }

  /** `Remove(s, y)` keeps every copy of the other elements, in order, and none of `y`. */
  lemma RemoveCount<T>(s: seq<T>, y: T)
    ensures Subsequence(Remove(s, y), s)
    ensures forall x :: Count(Remove(s, y), x) == if x == y then 0 else Count(s, x)
  {
    FilterSubsequence(s, z => z != y);
    forall x ensures Count(Remove(s, y), x) == if x == y then 0 else Count(s, x) {
      FilterCount(s, z => z != y, x);
    }
  }

  /** Removing an element that is absent changes nothing. */
  lemma RemoveAbsent<T>(s: seq<T>, y: T)
    requires y !in s
    ensures Remove(s, y) == s
  {
    FilterKeepsAll(s, z => z != y);
  }

  /** Appending `y` and removing it is removing it. */
  lemma RemoveSnoc<T>(s: seq<T>, y: T)
    ensures Remove(s + [y], y) == Remove(s, y)
  {
    FilterSnoc(s, y, z => z != y);
  }

  /** The number of occurrences of `x` in `s`. */
  function Count<T(==)>(s: seq<T>, x: T): nat {
    multiset(s)[x]
  }

  lemma CountSnoc<T>(s: seq<T>, x: T, y: T)
    ensures Count(s + [x], y) == Count(s, y) + if x == y then 1 else 0
  {
    assert multiset(s + [x]) == multiset(s) + multiset{x};
  }

  predicate NoDuplicates<T(==)>(s: seq<T>) {
    forall i, j :: 0 <= i < j < |s| ==> s[i] != s[j]
  }

  /**
   * The distinct elements of `s` in order of first occurrence: the order in
   * which `reduce` adds the keys of a counting object.
   */
  function Distinct<T(==)>(s: seq<T>): (r: seq<T>)
    ensures NoDuplicates(r)
    ensures forall i :: 0 <= i < |s| ==> s[i] in r
    ensures forall i :: 0 <= i < |r| ==> r[i] in s
  {
    if s == [] then []
    else
      var d := Distinct(s[..|s| - 1]);
      assert s == s[..|s| - 1] + [s[|s| - 1]];
      if s[|s| - 1] in d then d else d + [s[|s| - 1]]
  }

  lemma DistinctSnoc<T>(s: seq<T>, x: T)
    ensures Distinct(s + [x]) == if x in Distinct(s) then Distinct(s) else Distinct(s) + [x]
  {
    assert (s + [x])[..|s|] == s;
  }

  /** A sequence without repeats is its own list of distinct elements. */
  lemma {:induction false} DistinctOfNoDuplicates<T>(s: seq<T>)
    requires NoDuplicates(s)
    ensures Distinct(s) == s
  {
    if s != [] {
      var init := s[..|s| - 1];
      assert NoDuplicates(init);
      DistinctOfNoDuplicates(init);
      assert s == init + [s[|s| - 1]];
    }
  }

  /** The sum of the counts of the elements of `keys` in `s`. */
  function SumCounts<T(==)>(s: seq<T>, keys: seq<T>): nat {
    if keys == [] then 0 else Count(s, keys[0]) + SumCounts(s, keys[1..])
  }

  lemma {:induction false} SumCountsSnoc<T>(s: seq<T>, x: T, keys: seq<T>)
    ensures SumCounts(s + [x], keys) == SumCounts(s, keys) + Count(keys, x)
  {
    if keys != [] {
      SumCountsSnoc(s, x, keys[1..]);
      assert keys == [keys[0]] + keys[1..];
    }
  }

  lemma {:induction false} SumCountsAppend<T>(s: seq<T>, keys: seq<T>, k: T)
    ensures SumCounts(s, keys + [k]) == SumCounts(s, keys) + Count(s, k)
  {
    if keys != [] {
      SumCountsAppend(s, keys[1..], k);
      assert (keys + [k])[1..] == keys[1..] + [k];
    }
  }

  lemma {:induction false} CountWithoutDuplicates<T>(s: seq<T>, x: T)
    requires NoDuplicates(s)
    ensures Count(s, x) == if x in s then 1 else 0
  {
    if s != [] {
      CountWithoutDuplicates(s[1..], x);
      assert s == [s[0]] + s[1..];
      if s[0] == x { assert x !in s[1..]; }
    }
  }

  /** The counts of the distinct elements add up to the length: no element is counted twice or missed. */
  lemma {:induction false} SumCountsDistinct<T>(s: seq<T>)
    ensures SumCounts(s, Distinct(s)) == |s|
  {
    if s != [] {
      var init, x := s[..|s| - 1], s[|s| - 1];
      var d := Distinct(init);
      assert s == init + [x];
      SumCountsDistinct(init);
      SumCountsSnoc(init, x, d);
      CountWithoutDuplicates(d, x);
      if x !in d {
        SumCountsAppend(s, d, x);
        assert Count(init, x) == 0;
      }
    }
  }

  /** `s.slice(-n)`: the last `n` elements, or all of them when there are fewer. */
  function LastN<T>(s: seq<T>, n: nat): (r: seq<T>)
    ensures |r| == if |s| < n then |s| else n
    ensures r == s[|s| - |r|..]
  {
    if |s| <= n then s else s[|s| - n..]
  }

  /** `s` is in non-increasing order of `key`. */
  predicate SortedDesc<T>(s: seq<T>, key: T -> int) {
    forall i, j :: 0 <= i < j < |s| ==> key(s[i]) >= key(s[j])
  }

  /** Places `x` after every element whose key is at least `key(x)`. */
  function InsertDesc<T>(x: T, s: seq<T>, key: T -> int): (r: seq<T>)
    ensures multiset(r) == multiset(s) + multiset{x}
    ensures |r| == |s| + 1
  {
    if s == [] then [x]
    else if key(s[0]) < key(x) then [x] + s
    else
      assert s == [s[0]] + s[1..];
      [s[0]] + InsertDesc(x, s[1..], key)
  }

  /**
   * `s.sort((a, b) => key(b) - key(a))`: an insertion sort that puts
   * later elements after earlier ones of equal key, as the stable sort of
   * ECMAScript 2019 does.
   */
  function SortDesc<T>(s: seq<T>, key: T -> int): (r: seq<T>)
    ensures multiset(r) == multiset(s)
    ensures |r| == |s|
  {
    if s == [] then []
    else
      assert s == s[..|s| - 1] + [s[|s| - 1]];
      InsertDesc(s[|s| - 1], SortDesc(s[..|s| - 1], key), key)
  }

  lemma {:induction false} InsertDescBounded<T>(x: T, s: seq<T>, key: T -> int, b: int)
    requires key(x) <= b
    requires forall i :: 0 <= i < |s| ==> key(s[i]) <= b
    ensures forall i :: 0 <= i < |InsertDesc(x, s, key)| ==> key(InsertDesc(x, s, key)[i]) <= b
  {
    if s != [] && key(s[0]) >= key(x) {
      InsertDescBounded(x, s[1..], key, b);
    }
  }

  lemma {:induction false} InsertDescSorted<T>(x: T, s: seq<T>, key: T -> int)
    requires SortedDesc(s, key)
    ensures SortedDesc(InsertDesc(x, s, key), key)
  {
    if s != [] && key(s[0]) >= key(x) {
      InsertDescSorted(x, s[1..], key);
      InsertDescBounded(x, s[1..], key, key(s[0]));
    }
  }

  /** The sorted sequence is in non-increasing key order. */
  lemma {:induction false} SortDescSorted<T>(s: seq<T>, key: T -> int)
    ensures SortedDesc(SortDesc(s, key), key)
  {
    if s != [] {
      SortDescSorted(s[..|s| - 1], key);
      InsertDescSorted(s[|s| - 1], SortDesc(s[..|s| - 1], key), key);
    }
  }

  /** The elements of `s` whose key is `k`, in order. */
  function WithKey<T>(s: seq<T>, key: T -> int, k: int): seq<T> {
    if s == [] then [] else (if key(s[0]) == k then [s[0]] else []) + WithKey(s[1..], key, k)
  }

  lemma {:induction false} WithKeySnoc<T>(s: seq<T>, x: T, key: T -> int, k: int)
    ensures WithKey(s + [x], key, k) == WithKey(s, key, k) + (if key(x) == k then [x] else [])
  {
    if s != [] {
      WithKeySnoc(s[1..], x, key, k);
      assert (s + [x])[1..] == s[1..] + [x];
    }
  }

  lemma {:induction false} WithKeyAbove<T>(s: seq<T>, key: T -> int, k: int)
    requires forall i :: 0 <= i < |s| ==> key(s[i]) < k
    ensures WithKey(s, key, k) == []
  {
    if s != [] {
      WithKeyAbove(s[1..], key, k);
    }
  }

  lemma {:induction false} InsertDescWithKey<T>(x: T, s: seq<T>, key: T -> int, k: int)
    requires SortedDesc(s, key)
    ensures WithKey(InsertDesc(x, s, key), key, k) == WithKey(s, key, k) + (if key(x) == k then [x] else [])
  {
    if s == [] {
    } else if key(s[0]) < key(x) {
      if key(x) == k {
        WithKeyAbove(s, key, k);
      }
      assert InsertDesc(x, s, key) == [x] + s;
      assert ([x] + s)[1..] == s;
    } else {
      InsertDescWithKey(x, s[1..], key, k);
      var rest := InsertDesc(x, s[1..], key);
      assert InsertDesc(x, s, key) == [s[0]] + rest;
      assert ([s[0]] + rest)[1..] == rest;
      assert WithKey([s[0]] + rest, key, k) == (if key(s[0]) == k then [s[0]] else []) + WithKey(rest, key, k);
    }
  }

  /** Stability: the elements sharing a key keep their original relative order. */
  lemma {:induction false} SortDescStable<T>(s: seq<T>, key: T -> int, k: int)
    ensures WithKey(SortDesc(s, key), key, k) == WithKey(s, key, k)
  {
    if s != [] {
      var init, x := s[..|s| - 1], s[|s| - 1];
      assert s == init + [x];
      SortDescStable(init, key, k);
      SortDescSorted(init, key);
      InsertDescWithKey(x, SortDesc(init, key), key, k);
      WithKeySnoc(init, x, key, k);
    }
  }

  /** Filtering `s + [x]` is filtering `s`, then keeping `x` when it qualifies. */
  lemma {:induction false} FilterSnoc<T>(s: seq<T>, x: T, p: T -> bool)
    ensures Filter(s + [x], p) == Filter(s, p) + if p(x) then [x] else []
  {
    if s != [] {
      FilterSnoc(s[1..], x, p);
      assert (s + [x])[1..] == s[1..] + [x];
    }
  }

  /**
   * The counting object `reduce` builds, as its `Object.entries`: each
   * distinct element, in order of first occurrence, with its number of
   * occurrences.
   */
  function Tally<T(==)>(s: seq<T>): (r: seq<(T, nat)>)
    ensures |r| == |Distinct(s)|
    ensures forall i :: 0 <= i < |r| ==> r[i] == (Distinct(s)[i], Count(s, Distinct(s)[i]))
  {
    var d := Distinct(s);
    seq(|d|, i requires 0 <= i < |d| => (d[i], Count(s, d[i])))
  }

  /** The second component of a tally entry, as a sort key. */
  function Second<T>(e: (T, nat)): int {
    e.1
  }

  function SumSeconds<T>(r: seq<(T, nat)>): nat {
    if r == [] then 0 else r[0].1 + SumSeconds(r[1..])
  }

  lemma {:induction false} SumSecondsOfCounts<T>(s: seq<T>, keys: seq<T>, r: seq<(T, nat)>)
    requires |r| == |keys|
    requires forall i :: 0 <= i < |r| ==> r[i] == (keys[i], Count(s, keys[i]))
    ensures SumSeconds(r) == SumCounts(s, keys)
  {
    if r != [] {
      SumSecondsOfCounts(s, keys[1..], r[1..]);
    }
  }

  /** The counts of a tally add up to the length of the counted sequence. */
  lemma TallyTotal<T>(s: seq<T>)
    ensures SumSeconds(Tally(s)) == |s|
  {
    SumSecondsOfCounts(s, Distinct(s), Tally(s));
    SumCountsDistinct(s);
  }
}
