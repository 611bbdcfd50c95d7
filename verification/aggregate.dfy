/**
 * Sums over the files of an interval map and counts over adjacent pairs.
 * A Python dict is walked in insertion order, which the model does not
 * know; these sums are over the key SET, so a loop that visits the keys in
 * any order and proves that it computes one of them shows that the result
 * is the same for every order.
 */
module Aggregate {

  /** The multiset union of `f(k)` over the keys `keys`. */
  ghost function UnionOver<K, T>(keys: set<K>, f: K -> multiset<T>): multiset<T>
  {
    if keys == {} then multiset{} else var k :| k in keys; f(k) + UnionOver(keys - {k}, f)
  }

  /** The sum of `f(k)` over the keys `keys`. */
  ghost function SumOver<K>(keys: set<K>, f: K -> int): int
  {
    if keys == {} then 0 else var k :| k in keys; f(k) + SumOver(keys - {k}, f)
  }

  /** Any key may be taken out first: the union does not depend on the order of the keys. */
  lemma {:induction false} UnionOverRemove<K, T>(keys: set<K>, f: K -> multiset<T>, k: K)
    requires k in keys
    ensures UnionOver(keys, f) == f(k) + UnionOver(keys - {k}, f)
    decreases keys
  {
    var j :| j in keys && UnionOver(keys, f) == f(j) + UnionOver(keys - {j}, f);
    if j != k {
      UnionOverRemove(keys - {j}, f, k);
      UnionOverRemove(keys - {k}, f, j);
      assert keys - {j} - {k} == keys - {k} - {j};
    }
  }

  /** Any key may be taken out first: the sum does not depend on the order of the keys. */
  lemma {:induction false} SumOverRemove<K>(keys: set<K>, f: K -> int, k: K)
    requires k in keys
    ensures SumOver(keys, f) == f(k) + SumOver(keys - {k}, f)
    decreases keys
  {
    var j :| j in keys && SumOver(keys, f) == f(j) + SumOver(keys - {j}, f);
    if j != k {
      SumOverRemove(keys - {j}, f, k);
      SumOverRemove(keys - {k}, f, j);
      assert keys - {j} - {k} == keys - {k} - {j};
    }
  }

  /** Moving key `k` from the keys still to visit to the visited ones keeps the two a partition of `keys`. */
  lemma Visit<K>(keys: set<K>, done: set<K>, remaining: set<K>, k: K)
    requires done + remaining == keys && done !! remaining && k in remaining
    ensures (done + {k}) + (remaining - {k}) == keys && (done + {k}) !! (remaining - {k})
  {
  }

  /** An element of a union comes from the part of one of the keys. */
  lemma {:induction false} UnionOverMember<K, T>(keys: set<K>, f: K -> multiset<T>, x: T)
    requires x in UnionOver(keys, f)
    ensures exists k :: k in keys && x in f(k)
    decreases keys
  {
    var k :| k in keys;
    UnionOverRemove(keys, f, k);
    if x !in f(k) {
      UnionOverMember(keys - {k}, f, x);
    }
  }

  /** The size of a union is the sum of the sizes of its parts. */
  lemma {:induction false} UnionOverSize<K, T>(keys: set<K>, f: K -> multiset<T>, g: K -> int)
    requires forall k :: k in keys ==> |f(k)| == g(k)
    ensures |UnionOver(keys, f)| == SumOver(keys, g)
    decreases keys
  {
    if keys != {} {
      var k :| k in keys;
      UnionOverRemove(keys, f, k);
      SumOverRemove(keys, g, k);
      UnionOverSize(keys - {k}, f, g);
    }
  }

  /** The adjacent pair `(s[i], s[i + 1])` exists and satisfies `p`. */
  ghost predicate PairAt<T>(s: seq<T>, p: (T, T) -> bool, i: int) {
    0 <= i < |s| - 1 && p(s[i], s[i + 1])
  }

  /** The indices `i` at which the adjacent pair `(s[i], s[i + 1])` satisfies `p`. */
  ghost function PairIndices<T>(s: seq<T>, p: (T, T) -> bool): set<int>
  {
    set i | 0 <= i < |s| - 1 && PairAt(s, p, i)
  }

  /** Number of adjacent pairs in a sequence of `n` elements: `max(n - 1, 0)`. */
  function PairCount(n: nat): nat {
    if n == 0 then 0 else n - 1
  }

  /** Appending one element adds at most the one new pair to the pair indices. */
  lemma PairIndicesSnoc<T>(s: seq<T>, p: (T, T) -> bool)
    requires |s| >= 2
    ensures var init := s[..|s| - 1];
      PairIndices(s, p) == PairIndices(init, p) + (if p(s[|s| - 2], s[|s| - 1]) then {|s| - 2} else {})
    ensures |PairIndices(s, p)| == |PairIndices(s[..|s| - 1], p)| + (if p(s[|s| - 2], s[|s| - 1]) then 1 else 0)
  {
    var init := s[..|s| - 1];
    var extra: set<int> := if p(s[|s| - 2], s[|s| - 1]) then {|s| - 2} else {};
    forall i ensures PairAt(s, p, i) <==> PairAt(init, p, i) || i in extra {
      if 0 <= i < |s| - 2 {
        assert s[i] == init[i] && s[i + 1] == init[i + 1];
      }
    }
    assert PairIndices(s, p) == PairIndices(init, p) + extra;
    assert |s| - 2 !in PairIndices(init, p);
  }

  /** Only `max(n - 1, 0)` adjacent pairs exist. */
  lemma {:induction false} PairIndicesBound<T>(s: seq<T>, p: (T, T) -> bool)
    ensures |PairIndices(s, p)| <= PairCount(|s|)
    decreases |s|
  {
    if |s| < 2 {
      assert PairIndices(s, p) == {};
    } else {
      PairIndicesSnoc(s, p);
      PairIndicesBound(s[..|s| - 1], p);
    }
  }
}
