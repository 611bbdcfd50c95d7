/**
 * The access-pattern classifier (`function_patterns`): every adjacent pair of
 * a file's intervals, taken in start-time order, is consecutive, sequential or
 * random, and the three counters are summed over all files that are not
 * ignored.
 */
module Patterns {
  import opened Trace
  import opened Sorting
  import opened Aggregate

  datatype Pattern = Consecutive | Sequential | Random

  /** How the access `b` follows the access `a`: by comparing where `a`'s byte range ends with where `b`'s begins. */
  function Classify(a: Interval, b: Interval): (p: Pattern)
    ensures p == Consecutive <==> a.End() == b.offset
    ensures p == Sequential <==> a.End() < b.offset
    ensures p == Random <==> a.End() > b.offset
  {
    if a.End() == b.offset then Consecutive
    else if a.End() < b.offset then Sequential
    else Random
  }

  /** The classification of every adjacent pair of `ivs`, pair by pair. */
  function PairPatterns(ivs: seq<Interval>): (ps: seq<Pattern>)
    ensures |ps| == PairCount(|ivs|)
    ensures forall i :: 0 <= i < |ps| ==> ps[i] == Classify(ivs[i], ivs[i + 1])
  {
    if |ivs| < 2 then []
    else PairPatterns(ivs[..|ivs| - 1]) + [Classify(ivs[|ivs| - 2], ivs[|ivs| - 1])]
  }

  /** The dict `{'consecutive': ., 'sequential': ., 'random': .}`. */
  datatype PatternTally = PatternTally(consecutive: nat, sequential: nat, random: nat)
  {
    function Count(p: Pattern): nat {
      match p
      case Consecutive => consecutive
      case Sequential => sequential
      case Random => random
    }

    function Total(): nat {
      consecutive + sequential + random
    }

    /** Counter-wise sum. */
    function Merge(other: PatternTally): PatternTally {
      PatternTally(consecutive + other.consecutive, sequential + other.sequential, random + other.random)
    }

    /** `x[p] += 1`: exactly one counter moves, by one. */
    function Add(p: Pattern): (t: PatternTally)
      ensures t.Count(p) == Count(p) + 1
      ensures forall q :: q != p ==> t.Count(q) == Count(q)
      ensures t.Total() == Total() + 1
    {
      match p
      case Consecutive => this.(consecutive := consecutive + 1)
      case Sequential => this.(sequential := sequential + 1)
      case Random => this.(random := random + 1)
    }
  }

  /** The counters for a bag of classified pairs. */
  function Tally(ps: multiset<Pattern>): PatternTally {
    PatternTally(ps[Consecutive], ps[Sequential], ps[Random])
  }

  /** Every classified pair lands in exactly one counter. */
  lemma {:induction false} TallyTotal(ps: multiset<Pattern>)
    ensures Tally(ps).Total() == |ps|
    decreases |ps|
  {
    if ps != multiset{} {
      var p :| p in ps;
      var rest := ps - multiset{p};
      assert ps == rest + multiset{p};
      assert |ps| == |rest| + 1;
      assert ps[Consecutive] == rest[Consecutive] + (if p == Consecutive then 1 else 0);
      assert ps[Sequential] == rest[Sequential] + (if p == Sequential then 1 else 0);
      assert ps[Random] == rest[Random] + (if p == Random then 1 else 0);
      TallyTotal(rest);
    }
  }

  /** The adjacent-pair relation "classified as `p`". */
  function Is(p: Pattern): (Interval, Interval) -> bool {
    (a, b) => Classify(a, b) == p
  }

  /** Each counter of a file equals the number of adjacent pairs that meet its condition. */
  lemma {:induction false} PatternCountsByIndex(ivs: seq<Interval>, p: Pattern)
    ensures multiset(PairPatterns(ivs))[p] == |PairIndices(ivs, Is(p))|
    decreases |ivs|
  {
    if |ivs| < 2 {
      assert PairIndices(ivs, Is(p)) == {};
    } else {
      var init := ivs[..|ivs| - 1];
      PatternCountsByIndex(init, p);
      PairIndicesSnoc(ivs, Is(p));
    }
  }

  /** The pairs file `f` contributes: none for an ignored file, else its pairs in start-time order. */
  ghost function FilePatterns(all: IntervalMap, ignore: string -> bool, f: string): multiset<Pattern> {
    if f in all && !ignore(f) then multiset(PairPatterns(SortBy(all[f], TStartKey))) else multiset{}
  }

  ghost function PerFile(all: IntervalMap, ignore: string -> bool): string -> multiset<Pattern> {
    f => FilePatterns(all, ignore, f)
  }

  /** All classified pairs of all files. */
  ghost function AllPatterns(all: IntervalMap, ignore: string -> bool): multiset<Pattern> {
    UnionOver(all.Keys, PerFile(all, ignore))
  }

  /** The number of adjacent pairs file `f` has: `max(n - 1, 0)`, and 0 for an ignored file. */
  function FilePairs(all: IntervalMap, ignore: string -> bool, f: string): nat {
    if f in all && !ignore(f) then PairCount(|all[f]|) else 0
  }

  function PairsPerFile(all: IntervalMap, ignore: string -> bool): string -> int {
    f => FilePairs(all, ignore, f)
  }

  /** The grand total is the number of adjacent pairs summed over the files that are not ignored. */
  lemma PatternTotal(all: IntervalMap, ignore: string -> bool)
    ensures Tally(AllPatterns(all, ignore)).Total() == SumOver(all.Keys, PairsPerFile(all, ignore))
  {
    forall f | f in all.Keys ensures |PerFile(all, ignore)(f)| == PairsPerFile(all, ignore)(f) {
      if !ignore(f) {
        var ps := PairPatterns(SortBy(all[f], TStartKey));
        assert |multiset(ps)| == |ps|;
      }
    }
    TallyTotal(AllPatterns(all, ignore));
    UnionOverSize(all.Keys, PerFile(all, ignore), PairsPerFile(all, ignore));
  }

  /** One classified pair more moves the counter of its class by one. */
  lemma TallySnoc(x: PatternTally, ps: seq<Pattern>, i: nat)
    requires i < |ps|
    ensures x.Merge(Tally(multiset(ps[..i + 1]))) == x.Merge(Tally(multiset(ps[..i]))).Add(ps[i])
  {
    assert ps[..i + 1] == ps[..i] + [ps[i]];
  }

  /** The loop over one file's start-time-ordered intervals, adding each pair's class to `x`. */
  method AddPairPatterns(intervals: seq<Interval>, x: PatternTally) returns (y: PatternTally)
    ensures y == x.Merge(Tally(multiset(PairPatterns(intervals))))
    ensures y.Total() == x.Total() + PairCount(|intervals|)
  {
    ghost var ps := PairPatterns(intervals);
    y := x;
    var i := 0;
    while i + 1 < |intervals|
      invariant 0 <= i <= |ps|
      invariant y == x.Merge(Tally(multiset(ps[..i])))
      invariant y.Total() == x.Total() + i
    {
      var i1, i2 := intervals[i], intervals[i + 1];
      var offset1, count1 := i1.offset, i1.count;
      var offset2 := i2.offset;
      TallySnoc(x, ps, i);
      if offset1 + count1 == offset2 {
        y := y.Add(Consecutive);
      } else if offset1 + count1 < offset2 {
        y := y.Add(Sequential);
      } else {
        y := y.Add(Random);
      }
      i := i + 1;
    }
    assert ps[..i] == ps;
  }

  /** The body of the loop of `function_patterns` for a file that is not ignored: sort by start time, count the pairs. */
  method AddFilePatterns(allIntervals: IntervalMap, ignore: string -> bool, filename: string, x: PatternTally)
    returns (y: PatternTally)
    requires filename in allIntervals && !ignore(filename)
    ensures y == x.Merge(Tally(FilePatterns(allIntervals, ignore, filename)))
  {
    var intervals := SortBy(allIntervals[filename], TStartKey);
    y := AddPairPatterns(intervals, x);
  }

  /** One more file visited: the counters are those of the visited files, the new one included. */
  lemma VisitStep(perFile: string -> multiset<Pattern>, done: set<string>, f: string, x: PatternTally, y: PatternTally)
    requires f !in done
    requires x == Tally(UnionOver(done, perFile))
    requires y == x.Merge(Tally(perFile(f)))
    ensures y == Tally(UnionOver(done + {f}, perFile))
  {
    UnionOverRemove(done + {f}, perFile, f);
    assert done + {f} - {f} == done;
  }

  /** `function_patterns`: the three counters over all files, whatever order the files are visited in. */
  method FunctionPatterns(allIntervals: IntervalMap, ignore: string -> bool) returns (x: PatternTally)
    ensures x == Tally(AllPatterns(allIntervals, ignore))
    ensures x.Total() == SumOver(allIntervals.Keys, PairsPerFile(allIntervals, ignore))
  {
    x := PatternTally(0, 0, 0);
    ghost var done: set<string> := {};
    var remaining := allIntervals.Keys;
    while remaining != {}
      invariant done + remaining == allIntervals.Keys && done !! remaining
      invariant x == Tally(UnionOver(done, PerFile(allIntervals, ignore)))
      decreases remaining
    {
      var filename :| filename in remaining;
      Visit(allIntervals.Keys, done, remaining, filename);
      remaining := remaining - {filename};
      ghost var before := x;
      if !ignore(filename) {
        x := AddFilePatterns(allIntervals, ignore, filename, x);
      }
      VisitStep(PerFile(allIntervals, ignore), done, filename, before, x);
      done := done + {filename};
    }
    PatternTotal(allIntervals, ignore);
  }
}
