/**
 * The data the reporter analyses: I/O intervals grouped by file, and the raw
 * per-rank call records. Both are built by the trace reader and the interval
 * builder, which are not part of this model, and are inputs here.
 */
module Trace {

  /** A session (epoch) identifier carried by an interval. */
  type SegmentId = int

  /**
   * One read or write on a file, the list `[rank, tstart, tend, offset, count,
   * isRead, segments]` of the source. Times are reals (seconds); the byte
   * range accessed is `[offset, offset + count)`.
   */
  datatype Interval = Interval(
    rank: int,
    tstart: real,
    tend: real,
    offset: int,
    count: int,
    isRead: bool,
    segments: seq<SegmentId>)
  {
    /** Exclusive end of the byte range. */
    function End(): int { offset + count }

    /** `float(tend) - float(tstart)`. */
    function Duration(): real { tend - tstart }
  }

  /** Filename to the intervals on that file, in the order the builder emitted them. */
  type IntervalMap = map<string, seq<Interval>>

  /** One traced call of one rank: the function id, the time span and the string arguments. */
  datatype Record = Record(funcId: nat, tstart: real, tend: real, args: seq<string>)

  /** The sort key `lambda x: x[1]`. */
  function TStartKey(iv: Interval): real { iv.tstart }

  /** The sort key `lambda x: x[3]`; an integer offset is ordered as the real it equals. */
  function OffsetKey(iv: Interval): real { iv.offset as real }

  /** The files of `m` that the filter does not ignore. */
  function Tracked(m: IntervalMap, ignore: string -> bool): (fs: set<string>)
    ensures fs <= m.Keys
  {
    set f | f in m && !ignore(f)
  }
}
