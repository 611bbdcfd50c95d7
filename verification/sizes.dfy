/**
 * The I/O size histogram (`io_sizes`): how many intervals of each size the
 * files that are not ignored hold in one direction, emitted as the sizes in
 * ascending order and their counts.
 */
module Sizes {
  import opened Trace
  import opened Sorting
  import opened Aggregate

  /** The number of intervals of `ivs` in direction `read`. */
  function Matching(ivs: seq<Interval>, read: bool): (n: nat)
    ensures n <= |ivs|
  {
    if ivs == [] then 0
    else Matching(ivs[..|ivs| - 1], read) + (if ivs[|ivs| - 1].isRead == read then 1 else 0)
  }

  /** The sizes of the intervals of `ivs` in direction `read`, one per interval. */
  function SizesOf(ivs: seq<Interval>, read: bool): (m: multiset<int>)
    ensures |m| == Matching(ivs, read)
  {
    if ivs == [] then multiset{}
    else
      var last := ivs[|ivs| - 1];
      SizesOf(ivs[..|ivs| - 1], read) + (if last.isRead == read then multiset{last.count} else multiset{})
  }

  /** Every size in the bag is the count of an interval of `ivs` in direction `read`. */
  lemma {:induction false} SizesFromIntervals(ivs: seq<Interval>, read: bool)
    ensures forall s :: s in SizesOf(ivs, read) ==> exists iv :: iv in ivs && iv.isRead == read && iv.count == s
  {
    if ivs != [] {
      var init := ivs[..|ivs| - 1];
      SizesFromIntervals(init, read);
      forall s | s in SizesOf(ivs, read)
        ensures exists iv :: iv in ivs && iv.isRead == read && iv.count == s
      {
        if s in SizesOf(init, read) {
          var iv :| iv in init && iv.isRead == read && iv.count == s;
          assert iv in ivs;
        } else {
          assert ivs[|ivs| - 1] in ivs;
        }
      }
    }
  }

  /** The sizes file `f` contributes, none when it is ignored. */
  ghost function FileSizes(intervals: IntervalMap, ignore: string -> bool, read: bool, f: string): multiset<int> {
    if f in intervals && !ignore(f) then SizesOf(intervals[f], read) else multiset{}
  }

  ghost function PerFile(intervals: IntervalMap, ignore: string -> bool, read: bool): string -> multiset<int> {
    f => FileSizes(intervals, ignore, read, f)
  }

  /** The sizes of all intervals in direction `read` of all files that are not ignored. */
  ghost function AllSizes(intervals: IntervalMap, ignore: string -> bool, read: bool): multiset<int> {
    UnionOver(intervals.Keys, PerFile(intervals, ignore, read))
  }

  /** Every size in the histogram is the size of an interval in direction `read` of a file that is not ignored. */
  lemma AllSizesFromIntervals(intervals: IntervalMap, ignore: string -> bool, read: bool, s: int)
    requires s in AllSizes(intervals, ignore, read)
    ensures exists f, iv :: f in intervals && !ignore(f) && iv in intervals[f] && iv.isRead == read && iv.count == s
  {
    UnionOverMember(intervals.Keys, PerFile(intervals, ignore, read), s);
    var f :| f in intervals.Keys && s in FileSizes(intervals, ignore, read, f);
    SizesFromIntervals(intervals[f], read);
  }

  function MatchingPerFile(intervals: IntervalMap, ignore: string -> bool, read: bool): string -> int {
    f => if f in intervals && !ignore(f) then Matching(intervals[f], read) else 0
  }

  /** The dict `sizes` is the histogram of the bag `m`: a key per size that occurs, with its number of occurrences. */
  ghost predicate Histogram(sizes: map<int, nat>, m: multiset<int>) {
    forall s :: (s in sizes <==> s in m) && (s in sizes ==> sizes[s] == m[s])
  }

  /** The inner loop of `io_sizes` over one file's intervals. */
  method AddFileSizes(ivs: seq<Interval>, read: bool, sizes: map<int, nat>, ghost m: multiset<int>)
    returns (sizes': map<int, nat>)
    requires Histogram(sizes, m)
    ensures Histogram(sizes', m + SizesOf(ivs, read))
  {
    sizes' := sizes;
    var j := 0;
    assert m + SizesOf(ivs[..0], read) == m by {
      assert ivs[..0] == [];
    }
    while j < |ivs|
      invariant 0 <= j <= |ivs|
      invariant Histogram(sizes', m + SizesOf(ivs[..j], read))
    {
      var interval := ivs[j];
      var ioSize, isRead := interval.count, interval.isRead;
      if read != isRead {
        SkipStep(ivs, read, j, m, sizes');
        j := j + 1;
        continue;
      }
      ghost var before := sizes';
      if ioSize !in sizes' {
        sizes' := sizes'[ioSize := 0];
      }
      sizes' := sizes'[ioSize := sizes'[ioSize] + 1];
      CountStep(ivs, read, j, m, before, sizes');
      j := j + 1;
    }
    assert ivs[..j] == ivs;
  }

  /** One interval more adds its size when it goes in direction `read`. */
  lemma SizesOfSnoc(ivs: seq<Interval>, read: bool, j: int)
    requires 0 <= j < |ivs|
    ensures SizesOf(ivs[..j + 1], read)
         == SizesOf(ivs[..j], read) + (if ivs[j].isRead == read then multiset{ivs[j].count} else multiset{})
  {
    assert ivs[..j + 1][..j] == ivs[..j];
  }

  /** An interval in the other direction leaves the histogram as it is. */
  lemma SkipStep(ivs: seq<Interval>, read: bool, j: int, m: multiset<int>, sizes: map<int, nat>)
    requires 0 <= j < |ivs| && ivs[j].isRead != read
    requires Histogram(sizes, m + SizesOf(ivs[..j], read))
    ensures Histogram(sizes, m + SizesOf(ivs[..j + 1], read))
  {
    SizesOfSnoc(ivs, read, j);
  }

  /** An interval in direction `read` adds one to the count of its size. */
  lemma CountStep(ivs: seq<Interval>, read: bool, j: int, m: multiset<int>, sizes: map<int, nat>, sizes': map<int, nat>)
    requires 0 <= j < |ivs| && ivs[j].isRead == read
    requires Histogram(sizes, m + SizesOf(ivs[..j], read))
    requires sizes' == sizes[ivs[j].count := (if ivs[j].count in sizes then sizes[ivs[j].count] else 0) + 1]
    ensures Histogram(sizes', m + SizesOf(ivs[..j + 1], read))
  {
    var x := ivs[j].count;
    SizesOfSnoc(ivs, read, j);
    assert m + SizesOf(ivs[..j + 1], read) == (m + SizesOf(ivs[..j], read)) + multiset{x};
    HistogramAdd(sizes, m + SizesOf(ivs[..j], read), x, sizes');
  }

  /** Counting one more occurrence of `x`. */
  lemma HistogramAdd(sizes: map<int, nat>, m: multiset<int>, x: int, sizes': map<int, nat>)
    requires Histogram(sizes, m)
    requires x in sizes' && sizes'[x] == (if x in sizes then sizes[x] else 0) + 1
    requires forall s :: s != x ==> (s in sizes' <==> s in sizes) && (s in sizes' ==> sizes'[s] == sizes[s])
    ensures Histogram(sizes', m + multiset{x})
  {
  }

  /** The sort key of a size. */
  function SizeKey(x: int): real { x as real }

  /** Sum of a sequence of counts. */
  function Sum(ys: seq<nat>): nat {
    if ys == [] then 0 else Sum(ys[..|ys| - 1]) + ys[|ys| - 1]
  }

  /** The counts `m[x]` of the sizes listed in `xs`, summed. */
  ghost function SumCounts(m: multiset<int>, xs: seq<int>): nat {
    if xs == [] then 0 else SumCounts(m, xs[..|xs| - 1]) + m[xs[|xs| - 1]]
  }

  /** Dropping every copy of `x` from a bag shrinks it by the count of `x`. */
  lemma {:induction false} DropAll(m: multiset<int>, x: int)
    ensures |m| == |m[x := 0]| + m[x]
    decreases m[x]
  {
    if m[x] == 0 {
      assert m[x := 0] == m;
    } else {
      var fewer := m - multiset{x};
      assert m == fewer + multiset{x};
      assert fewer[x := 0] == m[x := 0];
      DropAll(fewer, x);
    }
  }

  /** Listing every size that occurs exactly once and summing its counts gives the size of the bag. */
  lemma {:induction false} SumCountsCover(m: multiset<int>, xs: seq<int>)
    requires forall x :: multiset(xs)[x] <= 1
    requires forall x :: x in m ==> x in multiset(xs)
    ensures SumCounts(m, xs) == |m|
    decreases |xs|
  {
    if xs == [] {
      assert forall y :: m[y] == 0;
      assert m == multiset{};
    } else {
      var init, x := xs[..|xs| - 1], xs[|xs| - 1];
      assert xs == init + [x];
      assert multiset(xs) == multiset(init) + multiset{x};
      forall y ensures multiset(init)[y] <= 1 {
        assert multiset(init)[y] <= multiset(xs)[y];
      }
      var rest := m[x := 0];
      DropAll(m, x);
      assert multiset(xs)[x] == multiset(init)[x] + 1;
      forall i | 0 <= i < |init| ensures init[i] != x {
        assert init[i] in multiset(init);
      }
      SumCountsAgree(m, rest, init);
      SumCountsCover(rest, init);
    }
  }

  /** Only the counts of the listed sizes matter. */
  lemma {:induction false} SumCountsAgree(m: multiset<int>, m': multiset<int>, xs: seq<int>)
    requires forall i :: 0 <= i < |xs| ==> m[xs[i]] == m'[xs[i]]
    ensures SumCounts(m, xs) == SumCounts(m', xs)
  {
    if xs != [] {
      SumCountsAgree(m, m', xs[..|xs| - 1]);
    }
  }

  /** Two equal elements at different positions occur twice. */
  lemma RepeatCounts(s: seq<int>, i: int, j: int)
    requires 0 <= i < j < |s| && s[i] == s[j]
    ensures multiset(s)[s[i]] >= 2
  {
    assert s == s[..j] + s[j..];
    assert s[i] in multiset(s[..j]);
    assert s[j] in multiset(s[j..]);
  }

  /** The loops of `io_sizes` over the files and their intervals: the dict `sizes`. */
  method CountSizes(intervals: IntervalMap, ignore: string -> bool, read: bool) returns (sizes: map<int, nat>)
    ensures Histogram(sizes, AllSizes(intervals, ignore, read))
  {
    ghost var perFile := PerFile(intervals, ignore, read);
    sizes := map[];
    ghost var done: set<string> := {};
    var remaining := intervals.Keys;
    while remaining != {}
      invariant done + remaining == intervals.Keys && done !! remaining
      invariant Histogram(sizes, UnionOver(done, perFile))
      decreases remaining
    {
      var filename :| filename in remaining;
      Visit(intervals.Keys, done, remaining, filename);
      remaining := remaining - {filename};
      UnionOverRemove(done + {filename}, perFile, filename);
      assert done + {filename} - {filename} == done;
      ghost var before := UnionOver(done, perFile);
      done := done + {filename};
      if ignore(filename) {
        continue;
      }
      sizes := AddFileSizes(intervals[filename], read, sizes, before);
    }
    assert done == intervals.Keys;
  }

  /** `sorted(sizes.keys())`: every key once, in strictly ascending order. */
  method SortedKeys(sizes: map<int, nat>) returns (xs: seq<int>)
    ensures forall x :: multiset(xs)[x] == if x in sizes then 1 else 0
    ensures forall i, j :: 0 <= i < j < |xs| ==> xs[i] < xs[j]
  {
    var keys: seq<int> := [];
    var rest := sizes.Keys;
    while rest != {}
      invariant rest <= sizes.Keys
      invariant forall x :: multiset(keys)[x] == if x in sizes && x !in rest then 1 else 0
      decreases rest
    {
      var k := Pick(rest);
      keys := keys + [k];
      rest := rest - {k};
    }
    xs := SortBy(keys, SizeKey);
    SortBySorts(keys, SizeKey);
    forall i, j | 0 <= i < j < |xs| ensures xs[i] < xs[j] {
      if xs[i] == xs[j] {
        RepeatCounts(xs, i, j);
      }
    }
  }

  /** Any element of a non-empty set. */
  method Pick(s: set<int>) returns (k: int)
    requires s != {}
    ensures k in s
  {
    if forall x :: x !in s {
      assert false;
    }
    k :| k in s;
  }

  /** `[sizes[x] for x in xs]` */
  function Lookup(sizes: map<int, nat>, xs: seq<int>): (ys: seq<nat>)
    requires forall i :: 0 <= i < |xs| ==> xs[i] in sizes
    ensures |ys| == |xs| && forall i :: 0 <= i < |xs| ==> ys[i] == sizes[xs[i]]
  {
    if xs == [] then [] else [sizes[xs[0]]] + Lookup(sizes, xs[1..])
  }

  /** The counts read off the histogram for its sorted keys add up to the size of the bag. */
  lemma CountsSum(sizes: map<int, nat>, m: multiset<int>, xs: seq<int>, ys: seq<nat>)
    requires Histogram(sizes, m)
    requires forall x :: multiset(xs)[x] == if x in sizes then 1 else 0
    requires |ys| == |xs| && forall i :: 0 <= i < |xs| ==> xs[i] in sizes && ys[i] == sizes[xs[i]]
    ensures forall i :: 0 <= i < |xs| ==> ys[i] == m[xs[i]]
    ensures Sum(ys) == |m|
  {
    forall i | 0 <= i < |xs| ensures ys[i] == m[xs[i]] {
      var x := xs[i];
      assert x in sizes && sizes[x] == m[x];
    }
    SumMatches(ys, xs, m);
    forall x | x in m ensures x in multiset(xs) {
      assert x in sizes;
    }
    SumCountsCover(m, xs);
  }

  /** `io_sizes`: the histogram of interval sizes in direction `read`, its sizes in ascending order with their counts. */
  method IoSizes(intervals: IntervalMap, ignore: string -> bool, read: bool) returns (xs: seq<int>, ys: seq<nat>)
    ensures forall i, j :: 0 <= i < j < |xs| ==> xs[i] < xs[j]
    ensures |ys| == |xs|
    ensures forall s :: s in xs <==> s in AllSizes(intervals, ignore, read)
    ensures forall i :: 0 <= i < |xs| ==> ys[i] == AllSizes(intervals, ignore, read)[xs[i]]
    ensures Sum(ys) == SumOver(intervals.Keys, MatchingPerFile(intervals, ignore, read))
  {
    var sizes := CountSizes(intervals, ignore, read);
    ghost var all := AllSizes(intervals, ignore, read);
    xs := SortedKeys(sizes);
    KeysListed(sizes, all, xs);
    ys := Lookup(sizes, xs);
    CountsSum(sizes, all, xs, ys);
    AllSizesCount(intervals, ignore, read);
  }

  /** A list holding every key of the histogram once holds exactly the sizes of the bag. */
  lemma KeysListed(sizes: map<int, nat>, m: multiset<int>, xs: seq<int>)
    requires Histogram(sizes, m)
    requires forall x :: multiset(xs)[x] == if x in sizes then 1 else 0
    ensures forall i :: 0 <= i < |xs| ==> xs[i] in sizes
    ensures forall x :: x in xs <==> x in m
  {
    forall x ensures x in xs <==> x in m {
      assert x in xs <==> x in multiset(xs);
    }
    forall i | 0 <= i < |xs| ensures xs[i] in sizes {
      var x := xs[i];
      assert x in multiset(xs);
      assert multiset(xs)[x] == if x in sizes then 1 else 0;
    }
  }

  /** There are as many sizes in the bag as matching intervals in the files that are not ignored. */
  lemma AllSizesCount(intervals: IntervalMap, ignore: string -> bool, read: bool)
    ensures |AllSizes(intervals, ignore, read)| == SumOver(intervals.Keys, MatchingPerFile(intervals, ignore, read))
  {
    UnionOverSize(intervals.Keys, PerFile(intervals, ignore, read), MatchingPerFile(intervals, ignore, read));
  }

  /** Counts listed position by position add up to the summed counts of the listed sizes. */
  lemma {:induction false} SumMatches(ys: seq<nat>, xs: seq<int>, m: multiset<int>)
    requires |ys| == |xs|
    requires forall i :: 0 <= i < |xs| ==> ys[i] == m[xs[i]]
    ensures Sum(ys) == SumCounts(m, xs)
  {
    if ys != [] {
      SumMatches(ys[..|ys| - 1], xs[..|xs| - 1], m);
    }
  }
}
