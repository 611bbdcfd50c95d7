/**
 * The per-function summaries of the reporter: `function_layers`, which splits
 * the call counts of every rank into the HDF5, MPI and POSIX layers by the
 * function's name, and the aggregation loop of `function_times`, which adds
 * up the time spent in each catalogued function in a fixed table of 2162
 * slots indexed by function id.
 */
module FunctionStats {
  import opened Strings
  import opened Trace

  /** The three slices of the layer pie chart. */
  datatype Layer = Hdf5 | Mpi | Posix

  /** The layer of a function: HDF5 if its name mentions "H5", else MPI if it mentions "MPI", else POSIX. */
  function LayerOf(name: string): Layer {
    if Contains(name, "H5") then Hdf5
    else if Contains(name, "MPI") then Mpi
    else Posix
  }

  /** The precedence of the layer test: "H5" anywhere in the name wins, then "MPI", and POSIX takes the rest. */
  lemma LayerPrecedence(name: string)
    ensures LayerOf(name) == Hdf5 <==> exists i :: OccursAt(name, "H5", i)
    ensures LayerOf(name) == Mpi <==> (forall i :: !OccursAt(name, "H5", i)) && exists i :: OccursAt(name, "MPI", i)
    ensures LayerOf(name) == Posix <==> (forall i :: !OccursAt(name, "H5", i)) && forall i :: !OccursAt(name, "MPI", i)
  {
    ContainsAt(name, "H5");
    ContainsAt(name, "MPI");
  }

  /** The dict `{'hdf5': .., 'mpi': .., 'posix': ..}`. */
  datatype LayerTally = LayerTally(hdf5: int, mpi: int, posix: int)
  {
    function Get(l: Layer): int {
      match l
      case Hdf5 => hdf5
      case Mpi => mpi
      case Posix => posix
    }

    function Total(): int { hdf5 + mpi + posix }

    /** `x[layer] += count`: that slice grows by `count`, the others keep their value. */
    function Add(l: Layer, count: int): (t: LayerTally)
      ensures t.Get(l) == Get(l) + count
      ensures forall l' :: l' != l ==> t.Get(l') == Get(l')
      ensures t.Total() == Total() + count
    {
      match l
      case Hdf5 => this.(hdf5 := hdf5 + count)
      case Mpi => this.(mpi := mpi + count)
      case Posix => this.(posix := posix + count)
    }
  }

  const NoCalls := LayerTally(0, 0, 0)

  /** Every rank's function-count table covers the whole function catalog. */
  predicate CountsCover(funcs: seq<string>, counts: seq<seq<int>>) {
    forall rank :: 0 <= rank < |counts| ==> |counts[rank]| >= |funcs|
  }

  /** The tally of every rank's counts, rank after rank. */
  function Layers(funcs: seq<string>, counts: seq<seq<int>>): LayerTally
    requires CountsCover(funcs, counts)
  {
    if counts == [] then NoCalls
    else LayersOfRow(funcs, counts[|counts| - 1], |funcs|, Layers(funcs, counts[..|counts| - 1]))
  }

  /** One rank's counts of the functions `0 .. n-1` added on top of `t`. */
  function LayersOfRow(funcs: seq<string>, row: seq<int>, n: nat, t: LayerTally): LayerTally
    requires n <= |funcs| && n <= |row|
  {
    if n == 0 then t
    else
      var t' := LayersOfRow(funcs, row, n - 1, t);
      if row[n - 1] <= 0 then t' else t'.Add(LayerOf(funcs[n - 1]), row[n - 1])
  }

  /** The positive counts of the functions `0 .. n-1` of one rank, whatever their layer. */
  function PositiveCalls(row: seq<int>, n: nat): nat
    requires n <= |row|
  {
    if n == 0 then 0 else PositiveCalls(row, n - 1) + (if row[n - 1] > 0 then row[n - 1] else 0)
  }

  /** The positive counts of every catalogued function on every rank. */
  function AllPositiveCalls(funcs: seq<string>, counts: seq<seq<int>>): nat
    requires CountsCover(funcs, counts)
  {
    if counts == [] then 0
    else AllPositiveCalls(funcs, counts[..|counts| - 1]) + PositiveCalls(counts[|counts| - 1], |funcs|)
  }

  /** A rank's contribution is its positive calls, spread over the three layers without loss or overlap. */
  lemma {:induction false} RowLayersTotal(funcs: seq<string>, row: seq<int>, n: nat, t: LayerTally)
    requires n <= |funcs| && n <= |row|
    ensures LayersOfRow(funcs, row, n, t).Total() == t.Total() + PositiveCalls(row, n)
    ensures var r := LayersOfRow(funcs, row, n, t); r.hdf5 >= t.hdf5 && r.mpi >= t.mpi && r.posix >= t.posix
  {
    if n > 0 {
      RowLayersTotal(funcs, row, n - 1, t);
    }
  }

  /** The three slices together hold exactly the positive calls of all ranks, and none is negative. */
  lemma {:induction false} LayersTotal(funcs: seq<string>, counts: seq<seq<int>>)
    requires CountsCover(funcs, counts)
    ensures Layers(funcs, counts).Total() == AllPositiveCalls(funcs, counts)
    ensures var r := Layers(funcs, counts); r.hdf5 >= 0 && r.mpi >= 0 && r.posix >= 0
  {
    if counts != [] {
      var init, last := counts[..|counts| - 1], counts[|counts| - 1];
      assert CountsCover(funcs, init) by {
        forall rank | 0 <= rank < |init| ensures |init[rank]| >= |funcs| {
          assert init[rank] == counts[rank];
        }
      }
      var before := Layers(funcs, init);
      LayersTotal(funcs, init);
      RowLayersTotal(funcs, last, |funcs|, before);
      assert Layers(funcs, counts) == LayersOfRow(funcs, last, |funcs|, before);
    }
  }

  /** A rank whose counts for the ids below `n` are all at most 0 leaves the tally unchanged. */
  lemma {:induction false} SilentRow(funcs: seq<string>, row: seq<int>, n: nat, t: LayerTally)
    requires n <= |funcs| && n <= |row|
    requires forall id :: 0 <= id < n ==> row[id] <= 0
    ensures LayersOfRow(funcs, row, n, t) == t
  {
    if n > 0 {
      SilentRow(funcs, row, n - 1, t);
    }
  }

  /** The inner loop of `function_layers` over one rank's counts. */
  method AddRowLayers(funcs: seq<string>, row: seq<int>, x: LayerTally) returns (x': LayerTally)
    requires |row| >= |funcs|
    ensures x' == LayersOfRow(funcs, row, |funcs|, x)
  {
    x' := x;
    var funcId := 0;
    while funcId < |funcs|
      invariant 0 <= funcId <= |funcs|
      invariant x' == LayersOfRow(funcs, row, funcId, x)
    {
      var count := row[funcId];
      funcId := funcId + 1;
      if count <= 0 {
        continue;
      }
      x' := x'.Add(LayerOf(funcs[funcId - 1]), count);
    }
  }

  /** `function_layers`: the layer pie chart's three slices. */
  method FunctionLayers(funcs: seq<string>, counts: seq<seq<int>>) returns (x: LayerTally)
    requires CountsCover(funcs, counts)
    ensures x == Layers(funcs, counts)
    ensures x.Total() == AllPositiveCalls(funcs, counts)
    ensures x.hdf5 >= 0 && x.mpi >= 0 && x.posix >= 0
  {
    x := NoCalls;
    var rank := 0;
    while rank < |counts|
      invariant 0 <= rank <= |counts|
      invariant x == Layers(funcs, counts[..rank])
    {
      assert counts[..rank + 1][..rank] == counts[..rank];
      x := AddRowLayers(funcs, counts[rank], x);
      rank := rank + 1;
    }
    assert counts[..rank] == counts;
    LayersTotal(funcs, counts);
  }

  /** The size of the time table, `np.zeros(2162)`. */
  const Slots := 2162

  /** The time a record adds to the table when its id lies in `[lo, hi)`: its duration if its function is catalogued. */
  function RecordTime(r: Record, funcs: seq<string>, lo: nat, hi: nat): real {
    if r.funcId < |funcs| && lo <= r.funcId < hi then r.tend - r.tstart else 0.0
  }

  /** The time one rank's records spend in catalogued functions with ids in `[lo, hi)`. */
  function RankSpan(rs: seq<Record>, funcs: seq<string>, lo: nat, hi: nat): real {
    if rs == [] then 0.0 else RankSpan(rs[..|rs| - 1], funcs, lo, hi) + RecordTime(rs[|rs| - 1], funcs, lo, hi)
  }

  /** The time one rank's records spend in function `id`. */
  function RankFuncTime(rs: seq<Record>, funcs: seq<string>, id: nat): real {
    RankSpan(rs, funcs, id, id + 1)
  }

  /** The time every rank's records spend in catalogued functions with ids in `[lo, hi)`. */
  function Span(records: seq<seq<Record>>, funcs: seq<string>, lo: nat, hi: nat): real {
    if records == [] then 0.0 else Span(records[..|records| - 1], funcs, lo, hi) + RankSpan(records[|records| - 1], funcs, lo, hi)
  }

  /** The time spent in function `id` over all ranks; zero for an id outside the catalog. */
  function FuncTime(records: seq<seq<Record>>, funcs: seq<string>, id: nat): real {
    Span(records, funcs, id, id + 1)
  }

  /** The table slots `0 .. n-1` summed. */
  function SlotsTime(records: seq<seq<Record>>, funcs: seq<string>, n: nat): real {
    if n == 0 then 0.0 else SlotsTime(records, funcs, n - 1) + FuncTime(records, funcs, n - 1)
  }

  /** Every catalogued function a record calls has a slot in the table. */
  predicate SlotsCover(records: seq<seq<Record>>, funcs: seq<string>) {
    forall rank, i :: 0 <= rank < |records| && 0 <= i < |records[rank]| && records[rank][i].funcId < |funcs| ==>
      records[rank][i].funcId < Slots
  }

  /** One rank's time in `[lo, hi)` is its time in `[lo, mid)` plus its time in `[mid, hi)`. */
  lemma {:induction false} RankSpanSplit(rs: seq<Record>, funcs: seq<string>, lo: nat, mid: nat, hi: nat)
    requires lo <= mid <= hi
    ensures RankSpan(rs, funcs, lo, hi) == RankSpan(rs, funcs, lo, mid) + RankSpan(rs, funcs, mid, hi)
  {
    if rs != [] {
      RankSpanSplit(rs[..|rs| - 1], funcs, lo, mid, hi);
    }
  }

  /** All ranks' time in `[lo, hi)` is their time in `[lo, mid)` plus their time in `[mid, hi)`. */
  lemma {:induction false} SpanSplit(records: seq<seq<Record>>, funcs: seq<string>, lo: nat, mid: nat, hi: nat)
    requires lo <= mid <= hi
    ensures Span(records, funcs, lo, hi) == Span(records, funcs, lo, mid) + Span(records, funcs, mid, hi)
  {
    if records != [] {
      SpanSplit(records[..|records| - 1], funcs, lo, mid, hi);
      RankSpanSplit(records[|records| - 1], funcs, lo, mid, hi);
    }
  }

  /** A rank with no catalogued record whose id lies in `[lo, hi)` spends no time there. */
  lemma {:induction false} RankSpanEmpty(rs: seq<Record>, funcs: seq<string>, lo: nat, hi: nat)
    requires forall i :: 0 <= i < |rs| && rs[i].funcId < |funcs| ==> !(lo <= rs[i].funcId < hi)
    ensures RankSpan(rs, funcs, lo, hi) == 0.0
  {
    if rs != [] {
      RankSpanEmpty(rs[..|rs| - 1], funcs, lo, hi);
    }
  }

  /** No rank has a catalogued record whose id lies in `[lo, hi)`: no time is spent there. */
  lemma {:induction false} SpanEmpty(records: seq<seq<Record>>, funcs: seq<string>, lo: nat, hi: nat)
    requires forall rank, i :: 0 <= rank < |records| && 0 <= i < |records[rank]| && records[rank][i].funcId < |funcs| ==>
      !(lo <= records[rank][i].funcId < hi)
    ensures Span(records, funcs, lo, hi) == 0.0
  {
    if records != [] {
      var last := records[|records| - 1];
      forall i | 0 <= i < |last| && last[i].funcId < |funcs| ensures !(lo <= last[i].funcId < hi) {
        assert records[|records| - 1][i] == last[i];
      }
      RankSpanEmpty(last, funcs, lo, hi);
      SpanEmpty(records[..|records| - 1], funcs, lo, hi);
    }
  }

  /** The slots `0 .. n-1` hold the time spent in the catalogued functions with ids below `n`. */
  lemma {:induction false} SlotsTimeSpan(records: seq<seq<Record>>, funcs: seq<string>, n: nat)
    ensures SlotsTime(records, funcs, n) == Span(records, funcs, 0, n)
  {
    if n == 0 {
      SpanEmpty(records, funcs, 0, 0);
    } else {
      SlotsTimeSpan(records, funcs, n - 1);
      SpanSplit(records, funcs, 0, n - 1, n);
    }
  }

  /** When the table covers the catalog, its slots together hold all the time spent in catalogued functions. */
  lemma TimesTotal(records: seq<seq<Record>>, funcs: seq<string>)
    requires SlotsCover(records, funcs)
    ensures SlotsTime(records, funcs, Slots) == Span(records, funcs, 0, |funcs|)
  {
    SlotsTimeSpan(records, funcs, Slots);
    if |funcs| <= Slots {
      SpanSplit(records, funcs, 0, |funcs|, Slots);
      SpanEmpty(records, funcs, |funcs|, Slots);
    } else {
      SpanSplit(records, funcs, 0, Slots, |funcs|);
      SpanEmpty(records, funcs, Slots, |funcs|);
    }
  }

  /** A function outside the catalog (a user function) gets no time. */
  lemma UserFunctionsIgnored(records: seq<seq<Record>>, funcs: seq<string>, id: nat)
    requires id >= |funcs|
    ensures FuncTime(records, funcs, id) == 0.0
  {
    SpanEmpty(records, funcs, id, id + 1);
  }

  /** The inner loop of `function_times` over one rank's records. */
  method AddRankTimes(rs: seq<Record>, funcs: seq<string>, aggregate: array<real>)
    requires aggregate.Length == Slots
    requires forall i :: 0 <= i < |rs| && rs[i].funcId < |funcs| ==> rs[i].funcId < Slots
    modifies aggregate
    ensures forall id :: 0 <= id < Slots ==> aggregate[id] == old(aggregate[id]) + RankFuncTime(rs, funcs, id)
  {
    var i := 0;
    assert rs[..0] == [];
    assert forall id :: 0 <= id < Slots ==> RankFuncTime(rs[..i], funcs, id) == 0.0;
    assert forall id :: 0 <= id < Slots ==> aggregate[id] == old(aggregate[id]);
    while i < |rs|
      invariant 0 <= i <= |rs|
      invariant forall id :: 0 <= id < Slots ==> aggregate[id] == old(aggregate[id]) + RankFuncTime(rs[..i], funcs, id)
    {
      var record := rs[i];
      assert rs[..i + 1][..i] == rs[..i];
      i := i + 1;
      if record.funcId >= |funcs| {
        continue;
      }
      aggregate[record.funcId] := aggregate[record.funcId] + (record.tend - record.tstart);
    }
    assert rs[..i] == rs;
  }

  /** `function_times`: the time table, slot `id` holding the time spent in catalogued function `id`. */
  method FunctionTimes(funcs: seq<string>, records: seq<seq<Record>>) returns (aggregate: array<real>)
    requires SlotsCover(records, funcs)
    ensures fresh(aggregate) && aggregate.Length == Slots
    ensures forall id :: 0 <= id < Slots ==> aggregate[id] == FuncTime(records, funcs, id)
  {
    aggregate := new real[Slots](_ => 0.0);
    var rank := 0;
    while rank < |records|
      invariant 0 <= rank <= |records|
      invariant forall id :: 0 <= id < Slots ==> aggregate[id] == FuncTime(records[..rank], funcs, id)
    {
      assert records[..rank + 1][..rank] == records[..rank];
      var rs := records[rank];
      forall i | 0 <= i < |rs| && rs[i].funcId < |funcs| ensures rs[i].funcId < Slots {
        assert rs[i] == records[rank][i];
      }
      AddRankTimes(rs, funcs, aggregate);
      rank := rank + 1;
    }
    assert records[..rank] == records;
  }
}
