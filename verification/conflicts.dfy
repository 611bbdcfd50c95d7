/**
 * The conflict detector (`file_access_patterns` and its inner
 * `pattern_for_one_file`): adjacent pairs of a file's intervals in offset
 * order that overlap and share a session are classified as RAR, RAW, WAW or
 * WAR, each split into same-rank (S) and different-rank (D) counts.
 */
module Conflicts {
  import opened Trace
  import opened Sorting
  import opened Aggregate

  /** A conflict kind, named "<later operation> After <earlier operation>". */
  datatype Kind = RAR | RAW | WAW | WAR
  {
    /** The earlier of the two operations is a read. */
    predicate EarlierIsRead() { this == RAR || this == WAR }

    /** The later of the two operations is a read. */
    predicate LaterIsRead() { this == RAR || this == RAW }
  }

  /** Whether the two operations were issued by the same rank (`'S'`) or not (`'D'`). */
  datatype Locality = Same | Different

  /** One of the eight counters. */
  datatype Cell = Cell(kind: Kind, locality: Locality)

  /** The inner dict `{'S': ., 'D': .}`. */
  datatype Split = Split(s: nat, d: nat)
  {
    function Get(l: Locality): nat {
      match l
      case Same => s
      case Different => d
    }

    function Inc(l: Locality): Split {
      match l
      case Same => this.(s := s + 1)
      case Different => this.(d := d + 1)
    }
  }

  /** The nested dict `pattern` of one file. */
  datatype ConflictTally = ConflictTally(rar: Split, raw: Split, waw: Split, war: Split)
  {
    function Get(c: Cell): nat {
      match c.kind
      case RAR => rar.Get(c.locality)
      case RAW => raw.Get(c.locality)
      case WAW => waw.Get(c.locality)
      case WAR => war.Get(c.locality)
    }

    function Total(): nat {
      rar.s + rar.d + raw.s + raw.d + waw.s + waw.d + war.s + war.d
    }

    /** `pattern[kind][locality] += 1`: exactly one of the eight counters moves, by one. */
    function Bump(c: Cell): (t: ConflictTally)
      ensures t.Get(c) == Get(c) + 1
      ensures forall c' :: c' != c ==> t.Get(c') == Get(c')
      ensures t.Total() == Total() + 1
    {
      match c.kind
      case RAR => this.(rar := rar.Inc(c.locality))
      case RAW => this.(raw := raw.Inc(c.locality))
      case WAW => this.(waw := waw.Inc(c.locality))
      case WAR => this.(war := war.Inc(c.locality))
    }
  }

  /** All eight counters at 0. */
  const NoConflicts := ConflictTally(Split(0, 0), Split(0, 0), Split(0, 0), Split(0, 0))

  /** The byte ranges overlap: `offset1 + count1 <= offset2` does not hold. */
  predicate Overlaps(i1: Interval, i2: Interval) {
    i2.offset < i1.End()
  }

  /** Both intervals carry session context. */
  predicate HasSessions(i1: Interval, i2: Interval) {
    |i1.segments| > 0 && |i2.segments| > 0
  }

  /** `segments1[0] in segments2 or segments2[0] in segments1`. */
  predicate SharesSession(i1: Interval, i2: Interval)
    requires HasSessions(i1, i2)
  {
    i1.segments[0] in i2.segments || i2.segments[0] in i1.segments
  }

  /** The pair is not skipped by any of the three checks. */
  predicate Examined(i1: Interval, i2: Interval) {
    Overlaps(i1, i2) && HasSessions(i1, i2) && SharesSession(i1, i2)
  }

  /**
   * The (earlier, later) roles of a pair. On equal start times the second
   * interval of the pair takes the earlier role.
   */
  function Roles(i1: Interval, i2: Interval): (r: (Interval, Interval))
    ensures r.0.tstart <= r.1.tstart
    ensures multiset{r.0, r.1} == multiset{i1, i2}
    ensures i1.tstart == i2.tstart ==> r == (i2, i1)
  {
    if i1.tstart < i2.tstart then (i1, i2) else (i2, i1)
  }

  /** The three postconditions of `Roles` leave exactly one choice. */
  lemma RolesDetermined(i1: Interval, i2: Interval, r: (Interval, Interval))
    requires r.0.tstart <= r.1.tstart
    requires multiset{r.0, r.1} == multiset{i1, i2}
    requires i1.tstart == i2.tstart ==> r == (i2, i1)
    ensures r == Roles(i1, i2)
  {
    assert r.0 in multiset{i1, i2} && r.1 in multiset{i1, i2};
    if i1.tstart != i2.tstart {
      assert r.0 != r.1;
      assert r.0 == i1 || r.0 == i2;
      assert r.1 == (if r.0 == i1 then i2 else i1) by {
        assert multiset{r.0, r.1} - multiset{r.0} == multiset{r.1};
      }
    }
  }

  /** The conflict kind of an (earlier, later) pair of operations. */
  function KindOf(isRead1: bool, isRead2: bool): (k: Kind)
    ensures k.EarlierIsRead() == isRead1 && k.LaterIsRead() == isRead2
  {
    if isRead1 && isRead2 then RAR
    else if isRead1 then WAR
    else if !isRead2 then WAW
    else RAW
  }

  /** A kind is fixed by which of its two operations are reads. */
  lemma KindDetermined(k: Kind, isRead1: bool, isRead2: bool)
    requires k.EarlierIsRead() == isRead1 && k.LaterIsRead() == isRead2
    ensures k == KindOf(isRead1, isRead2)
  {
  }

  /** The counter a pair increments, or `None` when the pair is skipped. */
  function Classify(i1: Interval, i2: Interval): (c: Option<Cell>)
    ensures c.None? <==> !Examined(i1, i2)
    ensures c.Some? ==>
      var (earlier, later) := Roles(i1, i2);
      && c.value.kind.EarlierIsRead() == earlier.isRead
      && c.value.kind.LaterIsRead() == later.isRead
      && (c.value.locality == Same <==> earlier.rank == later.rank)
  {
    if !Examined(i1, i2) then None
    else
      var (earlier, later) := Roles(i1, i2);
      Some(Cell(KindOf(earlier.isRead, later.isRead), if earlier.rank == later.rank then Same else Different))
  }

  datatype Option<T> = None | Some(value: T)

  /** The counters of a file whose intervals are in the order `ivs`: one adjacent pair at a time. */
  function FileConflicts(ivs: seq<Interval>): ConflictTally
  {
    if |ivs| < 2 then NoConflicts
    else
      var before := FileConflicts(ivs[..|ivs| - 1]);
      match Classify(ivs[|ivs| - 2], ivs[|ivs| - 1])
      case None => before
      case Some(c) => before.Bump(c)
  }

  /** The adjacent-pair relation "increments counter `c`". */
  function Hits(c: Cell): (Interval, Interval) -> bool {
    (a, b) => Classify(a, b) == Some(c)
  }

  /** The adjacent-pair relation "is examined". */
  function Counted(): (Interval, Interval) -> bool {
    (a, b) => Examined(a, b)
  }

  /** Each counter equals the number of adjacent pairs that increment it. */
  lemma {:induction false} ConflictCountsByIndex(ivs: seq<Interval>, c: Cell)
    ensures FileConflicts(ivs).Get(c) == |PairIndices(ivs, Hits(c))|
    decreases |ivs|
  {
    if |ivs| < 2 {
      assert PairIndices(ivs, Hits(c)) == {};
    } else {
      ConflictCountsByIndex(ivs[..|ivs| - 1], c);
      PairIndicesSnoc(ivs, Hits(c));
    }
  }

  /** The eight counters sum to the number of examined pairs, so to at most `max(n - 1, 0)`. */
  lemma {:induction false} ConflictTotal(ivs: seq<Interval>)
    ensures FileConflicts(ivs).Total() == |PairIndices(ivs, Counted())|
    ensures FileConflicts(ivs).Total() <= PairCount(|ivs|)
    decreases |ivs|
  {
    if |ivs| < 2 {
      assert PairIndices(ivs, Counted()) == {};
    } else {
      ConflictTotal(ivs[..|ivs| - 1]);
      PairIndicesSnoc(ivs, Counted());
      PairIndicesBound(ivs, Counted());
    }
  }

  /** The body of the loop of `pattern_for_one_file`: the three skips, the roles, and the four tests. */
  method ExaminePair(i1: Interval, i2: Interval, pattern: ConflictTally) returns (pattern': ConflictTally)
    ensures Classify(i1, i2).None? ==> pattern' == pattern
    ensures Classify(i1, i2).Some? ==> pattern' == pattern.Bump(Classify(i1, i2).value)
  {
    pattern' := pattern;
    var tstart1, offset1, count1, segments1 := i1.tstart, i1.offset, i1.count, i1.segments;
    var tstart2, offset2, count2, segments2 := i2.tstart, i2.offset, i2.count, i2.segments;
    if offset1 + count1 <= offset2 {
      return;
    }
    if |segments1| == 0 || |segments2| == 0 {
      return;
    }
    if !(segments1[0] in segments2 || segments2[0] in segments1) {
      return;
    }
    var isRead1 := if tstart1 < tstart2 then i1.isRead else i2.isRead;
    var isRead2 := if tstart2 > tstart1 then i2.isRead else i1.isRead;
    var rank1 := if tstart1 < tstart2 then i1.rank else i2.rank;
    var rank2 := if tstart2 > tstart1 then i2.rank else i1.rank;
    if isRead1 && isRead2 {
      if rank1 == rank2 { pattern' := pattern'.Bump(Cell(RAR, Same)); }
      else { pattern' := pattern'.Bump(Cell(RAR, Different)); }
    }
    if isRead1 && !isRead2 {
      if rank1 == rank2 { pattern' := pattern'.Bump(Cell(WAR, Same)); }
      else { pattern' := pattern'.Bump(Cell(WAR, Different)); }
    }
    if !isRead1 && !isRead2 {
      if rank1 == rank2 { pattern' := pattern'.Bump(Cell(WAW, Same)); }
      else { pattern' := pattern'.Bump(Cell(WAW, Different)); }
    }
    if !isRead1 && isRead2 {
      if rank1 == rank2 { pattern' := pattern'.Bump(Cell(RAW, Same)); }
      else { pattern' := pattern'.Bump(Cell(RAW, Different)); }
    }
  }

  /** One more adjacent pair examined: the counters of a list grow by the verdict on its last pair. */
  lemma FileConflictsSnoc(ivs: seq<Interval>, i: nat)
    requires i + 1 < |ivs|
    ensures Classify(ivs[i], ivs[i + 1]).None? ==> FileConflicts(ivs[..i + 2]) == FileConflicts(ivs[..i + 1])
    ensures Classify(ivs[i], ivs[i + 1]).Some? ==>
      FileConflicts(ivs[..i + 2]) == FileConflicts(ivs[..i + 1]).Bump(Classify(ivs[i], ivs[i + 1]).value)
  {
    assert ivs[..i + 2][..i + 1] == ivs[..i + 1];
  }

  /** The loop of `pattern_for_one_file` over the adjacent pairs of the offset-sorted list. */
  method CountConflicts(sorted: seq<Interval>) returns (pattern: ConflictTally)
    ensures pattern == FileConflicts(sorted)
  {
    pattern := NoConflicts;
    if |sorted| == 0 {
      return;
    }
    var i := 0;
    while i + 1 < |sorted|
      invariant 0 <= i < |sorted|
      invariant pattern == FileConflicts(sorted[..i + 1])
    {
      FileConflictsSnoc(sorted, i);
      pattern := ExaminePair(sorted[i], sorted[i + 1], pattern);
      i := i + 1;
    }
    assert sorted[..i + 1] == sorted;
  }

  /** `pattern_for_one_file`: the counters of one file, its intervals sorted by offset. */
  method PatternForOneFile(intervals: seq<Interval>) returns (pattern: ConflictTally)
    ensures pattern == FileConflicts(SortBy(intervals, OffsetKey))
    ensures pattern.Total() <= PairCount(|intervals|)
  {
    var sorted := SortBy(intervals, OffsetKey);
    pattern := CountConflicts(sorted);
    ConflictTotal(sorted);
  }

  /** The per-file counters of the files of `intervals` that are not ignored. */
  ghost predicate IsConflictTable(intervals: IntervalMap, ignore: string -> bool, table: map<string, ConflictTally>) {
    && table.Keys == Tracked(intervals, ignore)
    && forall f :: f in table ==> table[f] == FileConflicts(SortBy(intervals[f], OffsetKey))
  }

  /** `file_access_patterns`: one row of eight counters per file that is not ignored. */
  method FileAccessPatterns(intervals: IntervalMap, ignore: string -> bool) returns (table: map<string, ConflictTally>)
    ensures IsConflictTable(intervals, ignore, table)
    ensures forall f :: f in table ==> table[f].Total() <= PairCount(|intervals[f]|)
  {
    table := map[];
    var remaining := intervals.Keys;
    while remaining != {}
      invariant remaining <= intervals.Keys
      invariant table.Keys == Tracked(intervals, ignore) - remaining
      invariant forall f :: f in table ==> table[f] == FileConflicts(SortBy(intervals[f], OffsetKey))
      invariant forall f :: f in table ==> table[f].Total() <= PairCount(|intervals[f]|)
      decreases remaining
    {
      var filename :| filename in remaining;
      remaining := remaining - {filename};
      if !ignore(filename) {
        var pattern := PatternForOneFile(intervals[filename]);
        table := table[filename := pattern];
      }
    }
  }
}
