/**
 * Per-file I/O statistics (`io_statistics`). Phase 1 sums bytes and time of
 * every interval of a file into its read or its write totals; phase 2 scans
 * the raw call records of every rank and adds the duration of each
 * open/close/sync/seek call on a tracked file to that file's metadata time.
 * Bandwidth is derived from the totals, with a guard against zero.
 */
module Statistics {
  import opened Trace
  import opened Strings

  /** Bytes moved by the intervals of `ivs` in the given direction (`read` or write). */
  function Bytes(ivs: seq<Interval>, read: bool): int {
    if ivs == [] then 0
    else Bytes(ivs[..|ivs| - 1], read) + (if ivs[|ivs| - 1].isRead == read then ivs[|ivs| - 1].count else 0)
  }

  /** Time spent by the intervals of `ivs` in the given direction. */
  function Time(ivs: seq<Interval>, read: bool): real {
    if ivs == [] then 0.0
    else Time(ivs[..|ivs| - 1], read) + (if ivs[|ivs| - 1].isRead == read then ivs[|ivs| - 1].Duration() else 0.0)
  }

  /** Bytes moved by all intervals of `ivs`. */
  function TotalBytes(ivs: seq<Interval>): int {
    if ivs == [] then 0 else TotalBytes(ivs[..|ivs| - 1]) + ivs[|ivs| - 1].count
  }

  /** Time spent by all intervals of `ivs`. */
  function TotalTime(ivs: seq<Interval>): real {
    if ivs == [] then 0.0 else TotalTime(ivs[..|ivs| - 1]) + ivs[|ivs| - 1].Duration()
  }

  /** Every interval is counted in exactly one direction: read bytes plus write bytes is all bytes. */
  lemma {:induction false} BytesSplit(ivs: seq<Interval>)
    ensures Bytes(ivs, true) + Bytes(ivs, false) == TotalBytes(ivs)
  {
    if ivs != [] {
      BytesSplit(ivs[..|ivs| - 1]);
    }
  }

  /** Every interval is timed in exactly one direction: read time plus write time is all time. */
  lemma {:induction false} TimeSplit(ivs: seq<Interval>)
    ensures Time(ivs, true) + Time(ivs, false) == TotalTime(ivs)
  {
    if ivs != [] {
      TimeSplit(ivs[..|ivs| - 1]);
    }
  }

  /** The five dicts `sum_write_size`, `sum_write_time`, `sum_read_size`, `sum_read_time`, `sum_meta_time`. */
  datatype Sums = Sums(
    writeSize: map<string, int>,
    writeTime: map<string, real>,
    readSize: map<string, int>,
    readTime: map<string, real>,
    metaTime: map<string, real>)
  {
    /** The five dicts have the same keys: the tracked files. */
    ghost predicate Valid() {
      writeTime.Keys == readSize.Keys == readTime.Keys == metaTime.Keys == writeSize.Keys
    }
  }

  /** The totals of the files `files` are in: one entry per file, holding its totals from phase 1. */
  ghost predicate Totals(intervals: IntervalMap, files: set<string>, sums: Sums) {
    && sums.Valid()
    && sums.writeSize.Keys == files
    && files <= intervals.Keys
    && forall f :: f in files ==>
      && sums.writeSize[f] == Bytes(intervals[f], false)
      && sums.writeTime[f] == Time(intervals[f], false)
      && sums.readSize[f] == Bytes(intervals[f], true)
      && sums.readTime[f] == Time(intervals[f], true)
      && sums.metaTime[f] == 0.0
  }

  /** Phase 1 has run over `intervals`: one entry per file that is not ignored, with its totals. */
  ghost predicate Phase1Done(intervals: IntervalMap, ignore: string -> bool, sums: Sums) {
    Totals(intervals, Tracked(intervals, ignore), sums)
  }

  /** Setting a key twice keeps the second value. */
  lemma UpdateTwice<V>(m: map<string, V>, k: string, v: V, w: V)
    ensures m[k := v][k := w] == m[k := w]
  {
  }

  /** The totals of one interval more. */
  lemma TotalsSnoc(ivs: seq<Interval>, j: int)
    requires 0 <= j < |ivs|
    ensures Bytes(ivs[..j + 1], true) == Bytes(ivs[..j], true) + (if ivs[j].isRead then ivs[j].count else 0)
    ensures Bytes(ivs[..j + 1], false) == Bytes(ivs[..j], false) + (if ivs[j].isRead then 0 else ivs[j].count)
    ensures Time(ivs[..j + 1], true) == Time(ivs[..j], true) + (if ivs[j].isRead then ivs[j].Duration() else 0.0)
    ensures Time(ivs[..j + 1], false) == Time(ivs[..j], false) + (if ivs[j].isRead then 0.0 else ivs[j].Duration())
  {
    assert ivs[..j + 1][..j] == ivs[..j];
  }

  /**
   * The inner loop of phase 1: every interval of `filename` adds its size and
   * duration to that file's entry in the read dicts or in the write dicts.
   */
  method AddFileIntervals(
    filename: string, ivs: seq<Interval>,
    sumWriteSize: map<string, int>, sumWriteTime: map<string, real>,
    sumReadSize: map<string, int>, sumReadTime: map<string, real>)
    returns (
    sumWriteSize': map<string, int>, sumWriteTime': map<string, real>,
    sumReadSize': map<string, int>, sumReadTime': map<string, real>)
    requires filename in sumWriteSize && filename in sumWriteTime && filename in sumReadSize && filename in sumReadTime
    ensures sumWriteSize' == sumWriteSize[filename := sumWriteSize[filename] + Bytes(ivs, false)]
    ensures sumWriteTime' == sumWriteTime[filename := sumWriteTime[filename] + Time(ivs, false)]
    ensures sumReadSize' == sumReadSize[filename := sumReadSize[filename] + Bytes(ivs, true)]
    ensures sumReadTime' == sumReadTime[filename := sumReadTime[filename] + Time(ivs, true)]
  {
    sumWriteSize', sumWriteTime', sumReadSize', sumReadTime' := sumWriteSize, sumWriteTime, sumReadSize, sumReadTime;
    ghost var writeSize, writeTime := sumWriteSize[filename], sumWriteTime[filename];
    ghost var readSize, readTime := sumReadSize[filename], sumReadTime[filename];
    var j := 0;
    while j < |ivs|
      invariant 0 <= j <= |ivs|
      invariant sumWriteSize' == sumWriteSize[filename := writeSize + Bytes(ivs[..j], false)]
      invariant sumWriteTime' == sumWriteTime[filename := writeTime + Time(ivs[..j], false)]
      invariant sumReadSize' == sumReadSize[filename := readSize + Bytes(ivs[..j], true)]
      invariant sumReadTime' == sumReadTime[filename := readTime + Time(ivs[..j], true)]
    {
      var interval := ivs[j];
      var ioSize, isRead := interval.count, interval.isRead;
      var duration := interval.tend - interval.tstart;
      TotalsSnoc(ivs, j);
      if isRead {
        UpdateTwice(sumReadSize, filename, readSize + Bytes(ivs[..j], true), readSize + Bytes(ivs[..j + 1], true));
        UpdateTwice(sumReadTime, filename, readTime + Time(ivs[..j], true), readTime + Time(ivs[..j + 1], true));
        sumReadSize' := sumReadSize'[filename := sumReadSize'[filename] + ioSize];
        sumReadTime' := sumReadTime'[filename := sumReadTime'[filename] + duration];
      } else {
        UpdateTwice(sumWriteSize, filename, writeSize + Bytes(ivs[..j], false), writeSize + Bytes(ivs[..j + 1], false));
        UpdateTwice(sumWriteTime, filename, writeTime + Time(ivs[..j], false), writeTime + Time(ivs[..j + 1], false));
        sumWriteSize' := sumWriteSize'[filename := sumWriteSize'[filename] + ioSize];
        sumWriteTime' := sumWriteTime'[filename := sumWriteTime'[filename] + duration];
      }
      j := j + 1;
    }
    assert ivs[..j] == ivs;
  }

  /** Adding `f` to all five dicts keeps their keys equal. */
  lemma KeysAdd(files: set<string>, sums: Sums, f: string, sums': Sums)
    requires sums.Valid() && sums.writeSize.Keys == files
    requires sums'.writeSize.Keys == sums.writeSize.Keys + {f}
    requires sums'.writeTime.Keys == sums.writeTime.Keys + {f}
    requires sums'.readSize.Keys == sums.readSize.Keys + {f}
    requires sums'.readTime.Keys == sums.readTime.Keys + {f}
    requires sums'.metaTime.Keys == sums.metaTime.Keys + {f}
    ensures sums'.Valid() && sums'.writeSize.Keys == files + {f}
  {
  }

  /** One more file's totals, entered at a new key, keep the totals of the others. */
  lemma TotalsAdd(intervals: IntervalMap, files: set<string>, sums: Sums, f: string, sums': Sums)
    requires Totals(intervals, files, sums)
    requires f in intervals && f !in files
    requires sums'.writeSize == sums.writeSize[f := Bytes(intervals[f], false)]
    requires sums'.writeTime == sums.writeTime[f := Time(intervals[f], false)]
    requires sums'.readSize == sums.readSize[f := Bytes(intervals[f], true)]
    requires sums'.readTime == sums.readTime[f := Time(intervals[f], true)]
    requires sums'.metaTime == sums.metaTime[f := 0.0]
    ensures Totals(intervals, files + {f}, sums')
  {
    KeysAdd(files, sums, f, sums');
    forall g | g in files + {f}
      ensures && sums'.writeSize[g] == Bytes(intervals[g], false)
              && sums'.writeTime[g] == Time(intervals[g], false)
              && sums'.readSize[g] == Bytes(intervals[g], true)
              && sums'.readTime[g] == Time(intervals[g], true)
              && sums'.metaTime[g] == 0.0
    {
      if g != f {
        assert g in files;
        assert sums'.writeSize[g] == sums.writeSize[g] && sums'.writeTime[g] == sums.writeTime[g];
        assert sums'.readSize[g] == sums.readSize[g] && sums'.readTime[g] == sums.readTime[g];
        assert sums'.metaTime[g] == sums.metaTime[g];
      }
    }
  }

  /** Taking `f` off the files still to visit adds it to the visited tracked files unless it is ignored. */
  lemma TrackedStep(intervals: IntervalMap, ignore: string -> bool, remaining: set<string>, f: string)
    requires f in remaining && f in intervals
    ensures Tracked(intervals, ignore) - (remaining - {f})
         == (Tracked(intervals, ignore) - remaining) + (if ignore(f) then {} else {f})
  {
  }

  /** Phase 1: the five dicts, keyed by exactly the files that are not ignored. */
  method SumIntervals(intervals: IntervalMap, ignore: string -> bool) returns (sums: Sums)
    ensures Phase1Done(intervals, ignore, sums)
  {
    var sumWriteSize: map<string, int> := map[];
    var sumWriteTime: map<string, real> := map[];
    var sumReadSize: map<string, int> := map[];
    var sumReadTime: map<string, real> := map[];
    var sumMetaTime: map<string, real> := map[];
    var remaining := intervals.Keys;
    while remaining != {}
      invariant remaining <= intervals.Keys
      invariant Totals(intervals, Tracked(intervals, ignore) - remaining,
                       Sums(sumWriteSize, sumWriteTime, sumReadSize, sumReadTime, sumMetaTime))
      decreases remaining
    {
      var filename :| filename in remaining;
      ghost var files := Tracked(intervals, ignore) - remaining;
      ghost var before := Sums(sumWriteSize, sumWriteTime, sumReadSize, sumReadTime, sumMetaTime);
      TrackedStep(intervals, ignore, remaining, filename);
      remaining := remaining - {filename};
      if ignore(filename) {
        continue;
      }
      sumWriteSize := sumWriteSize[filename := 0];
      sumWriteTime := sumWriteTime[filename := 0.0];
      sumReadSize := sumReadSize[filename := 0];
      sumReadTime := sumReadTime[filename := 0.0];
      sumMetaTime := sumMetaTime[filename := 0.0];
      var ivs := intervals[filename];
      sumWriteSize, sumWriteTime, sumReadSize, sumReadTime :=
        AddFileIntervals(filename, ivs, sumWriteSize, sumWriteTime, sumReadSize, sumReadTime);
      UpdateTwice(before.writeSize, filename, 0, Bytes(ivs, false));
      UpdateTwice(before.writeTime, filename, 0.0, Time(ivs, false));
      UpdateTwice(before.readSize, filename, 0, Bytes(ivs, true));
      UpdateTwice(before.readTime, filename, 0.0, Time(ivs, true));
      TotalsAdd(intervals, files, before, filename, Sums(sumWriteSize, sumWriteTime, sumReadSize, sumReadTime, sumMetaTime));
    }
    sums := Sums(sumWriteSize, sumWriteTime, sumReadSize, sumReadTime, sumMetaTime);
  }

  /** The function id names a function of the catalog (ids past its end are user functions). */
  predicate InCatalog(r: Record, funcs: seq<string>) {
    r.funcId < |funcs|
  }

  /** The record is a POSIX open/close/sync/seek call: no directory, MPI or HDF5 function. */
  predicate IsMetadataCall(r: Record, funcs: seq<string>) {
    && InCatalog(r, funcs)
    && var func := funcs[r.funcId];
    && !(Contains(func, "dir") || Contains(func, "MPI") || Contains(func, "H5"))
    && (Contains(func, "open") || Contains(func, "close") || Contains(func, "sync") || Contains(func, "seek"))
  }

  /** Phase 2 can read `args[0]` of every metadata call; otherwise the scan stops with an index error. */
  ghost predicate ArgsPresent(records: seq<seq<Record>>, funcs: seq<string>) {
    forall rank, i :: 0 <= rank < |records| && 0 <= i < |records[rank]| && IsMetadataCall(records[rank][i], funcs) ==>
      |records[rank][i].args| > 0
  }

  /** The time record `r` adds to the metadata time of file `f`. */
  function MetaContribution(r: Record, funcs: seq<string>, f: string): real {
    if IsMetadataCall(r, funcs) && |r.args| > 0 && r.args[0] == f then r.tend - r.tstart else 0.0
  }

  /** Metadata time of `f` from one rank's records. */
  function RankMetaTime(rs: seq<Record>, funcs: seq<string>, f: string): real {
    if rs == [] then 0.0 else RankMetaTime(rs[..|rs| - 1], funcs, f) + MetaContribution(rs[|rs| - 1], funcs, f)
  }

  /** Metadata time of `f` from the records of all ranks. */
  function MetaTime(records: seq<seq<Record>>, funcs: seq<string>, f: string): real {
    if records == [] then 0.0
    else MetaTime(records[..|records| - 1], funcs, f) + RankMetaTime(records[|records| - 1], funcs, f)
  }

  /** The inner loop of phase 2 over one rank's records; `ok` is false when it reaches a metadata call without arguments. */
  method AddRankMetadata(records: seq<Record>, funcs: seq<string>, tracked: set<string>, metaTime: map<string, real>)
    returns (ok: bool, metaTime': map<string, real>)
    requires metaTime.Keys == tracked
    ensures ok <==> forall i :: 0 <= i < |records| && IsMetadataCall(records[i], funcs) ==> |records[i].args| > 0
    ensures ok ==> metaTime'.Keys == tracked
    ensures ok ==> forall f :: f in metaTime' ==> metaTime'[f] == metaTime[f] + RankMetaTime(records, funcs, f)
  {
    metaTime' := metaTime;
    var i := 0;
    while i < |records|
      invariant 0 <= i <= |records|
      invariant forall k :: 0 <= k < i && IsMetadataCall(records[k], funcs) ==> |records[k].args| > 0
      invariant metaTime'.Keys == tracked
      invariant forall f :: f in metaTime' ==> metaTime'[f] == metaTime[f] + RankMetaTime(records[..i], funcs, f)
    {
      var record := records[i];
      assert records[..i + 1][..i] == records[..i];
      if record.funcId >= |funcs| {
        i := i + 1;
        continue;
      }
      var func := funcs[record.funcId];
      if Contains(func, "dir") || Contains(func, "MPI") || Contains(func, "H5") {
        i := i + 1;
        continue;
      }
      if Contains(func, "open") || Contains(func, "close") || Contains(func, "sync") || Contains(func, "seek") {
        if |record.args| == 0 {
          return false, metaTime';
        }
        var filename := record.args[0];
        if filename in tracked {
          metaTime' := metaTime'[filename := metaTime'[filename] + (record.tend - record.tstart)];
        }
      }
      i := i + 1;
    }
    assert records[..i] == records;
    ok := true;
  }

  /** Phase 2 over the ranks: the metadata time of every tracked file; nothing else changes. */
  method AddMetadataTime(records: seq<seq<Record>>, funcs: seq<string>, sums: Sums) returns (ok: bool, sums': Sums)
    requires sums.Valid()
    ensures ok <==> ArgsPresent(records, funcs)
    ensures ok ==> sums'.Valid()
    ensures ok ==> sums' == sums.(metaTime := sums'.metaTime)
    ensures ok ==> forall f :: f in sums'.metaTime ==> sums'.metaTime[f] == sums.metaTime[f] + MetaTime(records, funcs, f)
  {
    sums' := sums;
    var tracked := sums.writeSize.Keys;
    var rank := 0;
    while rank < |records|
      invariant 0 <= rank <= |records|
      invariant ArgsPresent(records[..rank], funcs)
      invariant sums' == sums.(metaTime := sums'.metaTime)
      invariant sums'.metaTime.Keys == tracked
      invariant forall f :: f in sums'.metaTime ==> sums'.metaTime[f] == sums.metaTime[f] + MetaTime(records[..rank], funcs, f)
    {
      assert records[..rank + 1][..rank] == records[..rank];
      var rankOk, metaTime := AddRankMetadata(records[rank], funcs, tracked, sums'.metaTime);
      if !rankOk {
        return false, sums';
      }
      sums' := sums'.(metaTime := metaTime);
      rank := rank + 1;
    }
    assert records[..rank] == records;
    ok := true;
  }

  /** Bandwidth in MB/s, `size / time / (1024 * 1024)`, and 0 when either total is 0. */
  function Bandwidth(size: int, time: real): (bw: real)
    ensures size == 0 || time == 0.0 ==> bw == 0.0
    ensures size != 0 && time != 0.0 ==> bw * time * 1048576.0 == size as real
    ensures size > 0 && time > 0.0 ==> bw > 0.0
  {
    if size != 0 && time != 0.0 then size as real / time / (1024 * 1024) as real else 0.0
  }

  /** One row of the per-file table. */
  datatype FileRow = FileRow(
    bytesWritten: int,
    writeTime: real,
    writeBandwidth: real,
    bytesRead: int,
    readTime: real,
    readBandwidth: real,
    metadataTime: real)

  /** `io_statistics`: a row per file that is not ignored, or `ok == false` when phase 2 stops on a metadata call without arguments. */
  method IoStatistics(records: seq<seq<Record>>, funcs: seq<string>, intervals: IntervalMap, ignore: string -> bool)
    returns (ok: bool, table: map<string, FileRow>)
    ensures ok <==> ArgsPresent(records, funcs)
    ensures ok ==> table.Keys == Tracked(intervals, ignore)
    ensures ok ==> forall f :: f in table ==>
      && table[f].bytesWritten == Bytes(intervals[f], false)
      && table[f].writeTime == Time(intervals[f], false)
      && table[f].bytesRead == Bytes(intervals[f], true)
      && table[f].readTime == Time(intervals[f], true)
      && table[f].writeBandwidth == Bandwidth(table[f].bytesWritten, table[f].writeTime)
      && table[f].readBandwidth == Bandwidth(table[f].bytesRead, table[f].readTime)
      && table[f].metadataTime == MetaTime(records, funcs, f)
  {
    var sums := SumIntervals(intervals, ignore);
    ok, sums := AddMetadataTime(records, funcs, sums);
    if !ok {
      return false, map[];
    }
    table := map filename | filename in sums.writeSize ::
      var writeBw := if sums.writeSize[filename] != 0 && sums.writeTime[filename] != 0.0
        then sums.writeSize[filename] as real / sums.writeTime[filename] / (1024 * 1024) as real else 0.0;
      var readBw := if sums.readSize[filename] != 0 && sums.readTime[filename] != 0.0
        then sums.readSize[filename] as real / sums.readTime[filename] / (1024 * 1024) as real else 0.0;
      FileRow(sums.writeSize[filename], sums.writeTime[filename], writeBw,
              sums.readSize[filename], sums.readTime[filename], readBw, sums.metaTime[filename]);
  }
}
