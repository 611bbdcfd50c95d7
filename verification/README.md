# recorder-viz reporter: the analysis engine in Dafny

This project models the counting core of `recorder_viz/reporter.py`. That core reads the per-file
I/O intervals of a parallel trace (each interval is `[rank, tstart, tend, offset, count, isRead,
segments]`) and the raw per-rank call records. It produces:

- the access-pattern pie chart (`function_patterns`): every adjacent pair of a file's intervals in
  start-time order is consecutive, sequential or random;
- the conflict table (`file_access_patterns` / `pattern_for_one_file`): adjacent pairs in offset
  order that overlap and share a session are counted as RAR, RAW, WAW or WAR, each split by same
  rank (S) and different rank (D);
- the per-file statistics (`io_statistics`): bytes and time per direction, bandwidth with a zero
  guard, and the metadata time of open/close/sync/seek calls;
- the I/O size histogram (`io_sizes`);
- the layer pie chart (`function_layers`) and the function time table (`function_times`).

Each counting loop of the source is a Dafny `method` with a `while` loop, proved against a
specification function: `FileConflicts`, `Tally(AllPatterns(..))`, `Bytes`/`Time`, `MetaTime`,
`AllSizes`, `Layers` and `FuncTime`. Two loops that only build their output are written as
expressions. The table loop of `io_statistics` (reporter.py:467-476) is a map comprehension in
`Statistics.IoStatistics`. The list comprehension `[sizes[x] for x in xs]` (reporter.py:401) is
the recursive function `Sizes.Lookup`. Properties of those functions are proved as lemmas. The dict loops over
file names pick the next file with `:|`, so every result is proved to hold whatever order the dict
yields its keys in. The specification functions are sums over the key *set* (`Aggregate.UnionOver`,
`Aggregate.SumOver`).

Modules, one per file:

| file | module | models |
|---|---|---|
| `trace.dfy` | `Trace` | the interval list, the interval map, call records, the sort keys, the set of tracked files |
| `strings.dfy` | `Strings` | Python's substring test `sub in s` |
| `sorting.dfy` | `Sorting` | `sorted(xs, key=...)` as a stable insertion sort |
| `aggregate.dfy` | `Aggregate` | order-independent sums over a key set; adjacent-pair index sets |
| `patterns.dfy` | `Patterns` | `function_patterns` |
| `conflicts.dfy` | `Conflicts` | `file_access_patterns`, `pattern_for_one_file` |
| `statistics.dfy` | `Statistics` | `io_statistics` |
| `sizes.dfy` | `Sizes` | `io_sizes` |
| `functionstats.dfy` | `FunctionStats` | `function_layers`, `function_times` |

Three behaviours of the code that a reader might not expect, which the model follows:

- **Shared session.** A pair shares a session when the *first* segment of either interval is in
  the other's segment list (reporter.py:345). This is not a full intersection test.
- **Tie-break.** When start times are equal, the *second* interval of the pair takes the earlier
  role (reporter.py:348-351).
- **Bandwidth guard.** Bandwidth is 0 when the byte sum *or* the time sum is 0 (reporter.py:469,
  472). This is not the same as "time > 0".

## Model

| member | source | states |
|---|---|---|
| `Strings.ContainsAt` | recorder_viz/reporter.py:457-458 | The substring test used by the name filters holds exactly when the pattern occurs at some position of the name. |
| `Trace.Interval.Duration` | recorder_viz/reporter.py:437 | The duration of an interval, `tend - tstart`. |
| `Sorting.SortBy` | recorder_viz/reporter.py:329 | Sorting keeps the number of intervals. |
| `Sorting.SortBySorts` | recorder_viz/reporter.py:98 | The sorted list is in ascending key order and is a permutation of the input. It is stable: for every key, the elements with that key keep their input order. |
| `Sorting.Insert` | recorder_viz/reporter.py:98 | One insertion step of the sort; the result is one element longer. |
| `Sorting.InsertPermutes` | recorder_viz/reporter.py:98 | An insertion step adds its element and loses none (multiset equality). |
| `Sorting.InsertSorted` | recorder_viz/reporter.py:98 | Inserting into a key-ordered list keeps it key-ordered. |
| `Sorting.InsertWithKey` | recorder_viz/reporter.py:98 | Inserting puts the new element in front of every element with the same key, so equal keys keep input order. |
| `Aggregate.UnionOverRemove` | recorder_viz/reporter.py:96 | Any file may be visited first: the union of the per-file bags does not depend on the dict's key order. |
| `Aggregate.SumOverRemove` | recorder_viz/reporter.py:391 | Any file may be visited first: a per-file sum does not depend on the dict's key order. |
| `Aggregate.UnionOverSize` | recorder_viz/reporter.py:391-397 | The size of the union of the per-file bags is the sum of their sizes. |
| `Aggregate.UnionOverMember` | recorder_viz/reporter.py:391-397 | An element of the union belongs to the bag of one of the files. |
| `Aggregate.PairIndicesBound` | recorder_viz/reporter.py:114 | A list of n intervals has at most `max(n - 1, 0)` adjacent pairs satisfying any condition. |
| `Aggregate.PairIndicesSnoc` | recorder_viz/reporter.py:330 | Appending an interval adds only the new last pair, and only when it satisfies the condition. |
| `Patterns.Classify` | recorder_viz/reporter.py:119-124 | Consecutive iff the first range ends at the second offset. Sequential iff it ends before. Random iff it ends after. Exactly one of the three holds. |
| `Patterns.PairPatterns` | recorder_viz/reporter.py:114-124 | There is one class per adjacent pair, `max(n - 1, 0)` in all. The i-th is the class of intervals i and i + 1. |
| `Patterns.PatternTally.Add` | recorder_viz/reporter.py:120-124 | `x[p] += 1`: counter p grows by one, the other two keep their value, and the total grows by one. |
| `Patterns.TallyTotal` | recorder_viz/reporter.py:125 | The three counters of a bag of classified pairs sum to the number of pairs. |
| `Patterns.PatternCountsByIndex` | recorder_viz/reporter.py:114-124 | Each counter of a file equals the number of adjacent-pair indices whose pair meets that counter's condition. |
| `Patterns.AddPairPatterns` | recorder_viz/reporter.py:114-124 | The pair loop adds every pair's class to the counters. The total grows by exactly `max(n - 1, 0)`. |
| `Patterns.AddFilePatterns` | recorder_viz/reporter.py:98-124 | For a file that is not ignored, sorting by start time and running the pair loop adds that file's classified pairs to the counters. |
| `Patterns.VisitStep` | recorder_viz/reporter.py:96-97 | After visiting one more file, the counters are the tally of the pairs of all files visited so far. |
| `Patterns.PatternTotal` | recorder_viz/reporter.py:96-125 | The grand total is the sum of `max(n - 1, 0)` over the files that are not ignored. |
| `Patterns.FunctionPatterns` | recorder_viz/reporter.py:91-131 | The counters are the tally of the classified pairs of all files that are not ignored, in any visit order. Their total is the sum of `max(n - 1, 0)` per file. |
| `Conflicts.Roles` | recorder_viz/reporter.py:348-351 | The earlier role starts no later than the later role. The two roles are the pair's two intervals. On equal start times the second interval is the earlier one. |
| `Conflicts.RolesDetermined` | recorder_viz/reporter.py:348-351 | Those three properties leave exactly one role assignment, so read flag and rank of each role come from one interval. |
| `Conflicts.Overlaps` | recorder_viz/reporter.py:336-337 | The byte ranges overlap: the first range ends after the second offset. |
| `Conflicts.SharesSession` | recorder_viz/reporter.py:345-346 | The first segment of either interval is in the other's segment list. |
| `Conflicts.Examined` | recorder_viz/reporter.py:336-346 | A pair passes all three skip tests: overlap, both segment lists non-empty, a shared first segment. |
| `Conflicts.KindOf` | recorder_viz/reporter.py:355-366 | The kind's earlier and later read flags are the two given flags. |
| `Conflicts.KindDetermined` | recorder_viz/reporter.py:355-366 | A kind is fixed by its two read flags, so the four tests are mutually exclusive and jointly exhaustive. |
| `Conflicts.Classify` | recorder_viz/reporter.py:336-366 | A pair is skipped iff its ranges do not overlap, a segment list is empty, or neither first segment is in the other list. Otherwise its counter's kind matches the read flags of the earlier and later roles, with locality S iff the ranks are equal. |
| `Conflicts.ConflictTally.Bump` | recorder_viz/reporter.py:356-366 | Exactly one of the eight counters moves, by one, and the total grows by one. |
| `Conflicts.FileConflicts` | recorder_viz/reporter.py:330-366 | The counters of a list in its given order, one adjacent pair at a time, starting from eight zeros. |
| `Conflicts.ExaminePair` | recorder_viz/reporter.py:331-366 | The loop body leaves the counters unchanged for a skipped pair. Otherwise it bumps exactly the counter `Classify` names. |
| `Conflicts.CountConflicts` | recorder_viz/reporter.py:330-366 | Starting from eight zero counters, the pair loop yields the counters of the list. |
| `Conflicts.ConflictCountsByIndex` | recorder_viz/reporter.py:330-366 | Each counter equals the number of adjacent-pair indices that increment it. |
| `Conflicts.ConflictTotal` | recorder_viz/reporter.py:327-366 | The eight counters sum to the number of examined pairs, which is at most `max(n - 1, 0)`. |
| `Conflicts.PatternForOneFile` | recorder_viz/reporter.py:326-374 | The result is the counters of the offset-sorted list, with total at most `max(n - 1, 0)`. |
| `Conflicts.FileAccessPatterns` | recorder_viz/reporter.py:379-384 | There is one row per file that is not ignored and no other row. Each row is that file's counters, with total at most `max(n - 1, 0)`. |
| `Statistics.BytesSplit` | recorder_viz/reporter.py:439-444 | Read bytes plus write bytes equal the file's total byte count. |
| `Statistics.TimeSplit` | recorder_viz/reporter.py:437-444 | Read time plus write time equal the file's total interval time. |
| `Statistics.Bytes` | recorder_viz/reporter.py:435-444 | The bytes of the intervals of one direction, summed. |
| `Statistics.Time` | recorder_viz/reporter.py:435-444 | The durations of the intervals of one direction, summed. |
| `Statistics.TotalsSnoc` | recorder_viz/reporter.py:435-444 | Each interval adds its count and duration to exactly one direction's sums. |
| `Statistics.AddFileIntervals` | recorder_viz/reporter.py:435-444 | The inner loop raises the file's entry in each of the four sum dicts by the file's bytes or time in that direction. Every other key is unchanged. |
| `Statistics.TotalsAdd` | recorder_viz/reporter.py:429-444 | Entering one more file's totals at a new key keeps every earlier file's totals. |
| `Statistics.SumIntervals` | recorder_viz/reporter.py:420-444 | After phase 1, the five dicts are keyed by exactly the files that are not ignored. They hold each file's bytes and time per direction, and metadata time 0. |
| `Statistics.IsMetadataCall` | recorder_viz/reporter.py:454-458 | A record is a metadata call when its id is in the catalog, its name contains none of "dir", "MPI" or "H5", and it contains one of "open", "close", "sync" or "seek". |
| `Statistics.MetaContribution` | recorder_viz/reporter.py:459-461 | A metadata call that has arguments and whose first argument is the file adds its duration to that file. Every other record adds 0. |
| `Statistics.AddRankMetadata` | recorder_viz/reporter.py:451-461 | The rank's scan completes iff every metadata call in it has an argument. It keeps the keys. Each tracked file's metadata time grows by the durations of in-catalog, non-dir/MPI/H5, open/close/sync/seek calls whose first argument names it. |
| `Statistics.AddMetadataTime` | recorder_viz/reporter.py:446-461 | Phase 2 over all ranks completes iff every metadata call has an argument. Only the metadata dict changes; it gains each file's metadata time. |
| `Statistics.Bandwidth` | recorder_viz/reporter.py:467-473 | Bandwidth is 0 when bytes or time is 0. Otherwise bandwidth × time × 1048576 = bytes, and it is positive for positive inputs. No division by zero. |
| `Statistics.IoStatistics` | recorder_viz/reporter.py:419-479 | Without a missing argument there is one row per file that is not ignored. Each row holds its bytes, time and guarded bandwidth per direction and its metadata time. A missing argument is reported as failure. |
| `Sizes.SizesOf` | recorder_viz/reporter.py:393-397 | A file's bag of sizes has one entry per interval in the requested direction. |
| `Sizes.Matching` | recorder_viz/reporter.py:395 | The number of intervals in the requested direction, at most the number of intervals. |
| `Sizes.SizesFromIntervals` | recorder_viz/reporter.py:393-397 | Every size in a file's bag is the count of one of its intervals in the requested direction. |
| `Sizes.AllSizesFromIntervals` | recorder_viz/reporter.py:391-397 | Every size in the histogram is the count of an interval in that direction of a file that is not ignored. |
| `Sizes.HistogramAdd` | recorder_viz/reporter.py:396-397 | `if size not in sizes: sizes[size] = 0; sizes[size] += 1` turns the histogram of a bag into that of the bag with one more occurrence. |
| `Sizes.CountStep` | recorder_viz/reporter.py:394-397 | An interval in the requested direction adds one occurrence of its size. |
| `Sizes.SkipStep` | recorder_viz/reporter.py:395 | An interval in the other direction leaves the histogram as it is. |
| `Sizes.AddFileSizes` | recorder_viz/reporter.py:393-397 | The inner loop turns the histogram of a bag into the histogram of the bag plus the file's sizes. |
| `Sizes.CountSizes` | recorder_viz/reporter.py:390-397 | The dict is the histogram of the sizes of all intervals in the requested direction of the files that are not ignored, in any visit order. |
| `Sizes.AllSizesCount` | recorder_viz/reporter.py:391-397 | There are as many sizes as matching intervals summed over the files that are not ignored. |
| `Sizes.SortedKeys` | recorder_viz/reporter.py:400 | Every key appears exactly once, in strictly ascending order. |
| `Sizes.KeysListed` | recorder_viz/reporter.py:400 | The sorted key list holds exactly the sizes that occur. |
| `Sizes.Lookup` | recorder_viz/reporter.py:401 | `ys[i] == sizes[xs[i]]` for every position. |
| `Sizes.SumCountsCover` | recorder_viz/reporter.py:400-401 | Summing the counts of a list holding every size once gives the size of the bag. |
| `Sizes.CountsSum` | recorder_viz/reporter.py:400-401 | Each count listed is the number of occurrences of its size, and the counts sum to the size of the bag. |
| `Sizes.IoSizes` | recorder_viz/reporter.py:388-401 | The sizes are strictly ascending and exactly those that occur. Each count is its size's number of occurrences. The counts sum to the number of intervals in the requested direction of the files that are not ignored. |
| `FunctionStats.LayerPrecedence` | recorder_viz/reporter.py:81-86 | HDF5 iff "H5" occurs in the name. MPI iff "H5" does not occur and "MPI" does. POSIX iff neither occurs. |
| `FunctionStats.LayerOf` | recorder_viz/reporter.py:81-86 | A function's layer: HDF5 if its name contains "H5", else MPI if it contains "MPI", else POSIX. |
| `FunctionStats.LayerTally.Add` | recorder_viz/reporter.py:82-86 | `x[layer] += count`: that slice grows by count, the others keep their value, and the total grows by count. |
| `FunctionStats.SilentRow` | recorder_viz/reporter.py:80 | A rank whose counts for the ids below n are all ≤ 0 leaves every slice unchanged. |
| `FunctionStats.RowLayersTotal` | recorder_viz/reporter.py:78-86 | A rank adds exactly its positive counts to the total, and no slice decreases. |
| `FunctionStats.LayersTotal` | recorder_viz/reporter.py:77-86 | The three slices sum to the positive counts of all catalogued functions on all ranks, and none is negative. |
| `FunctionStats.AddRowLayers` | recorder_viz/reporter.py:78-86 | The inner loop adds one rank's counts, skipping counts ≤ 0, each to the layer of its function. |
| `FunctionStats.FunctionLayers` | recorder_viz/reporter.py:74-88 | The slices are the layer tally of all ranks. Their total is all positive calls and each slice is non-negative. |
| `FunctionStats.SlotsTimeSpan` | recorder_viz/reporter.py:164-173 | The first n slots together hold the time spent in catalogued functions with ids below n. |
| `FunctionStats.TimesTotal` | recorder_viz/reporter.py:164-173 | When every catalogued id fits the table, the 2162 slots together hold all the time spent in catalogued functions. |
| `FunctionStats.UserFunctionsIgnored` | recorder_viz/reporter.py:171 | An id outside the catalog (a user function) gets no time. |
| `FunctionStats.AddRankTimes` | recorder_viz/reporter.py:167-173 | Each slot grows by the time the rank's catalogued records spend in that function. |
| `FunctionStats.FunctionTimes` | recorder_viz/reporter.py:161-173 | A fresh 2162-slot table in which slot `id` holds the time spent in catalogued function `id` over all ranks. |

## Left out

- **Rendering.** Bokeh figures, `components`, `gridplot`, `LabelSet`, the pandas pie chart, PrettyTable and the HTML writer are foreign rendering libraries. The model stops at the counters, dicts and rows they would display.
- **Trace reading and interval construction.** `RecorderReader` and `build_offset_intervals` are not part of this model: the interval map and the per-rank record lists are inputs.
- **`ignore_files`.** It lives in `build_offset_intervals.py`, which is not part of this model, so it is a parameter `ignore: string -> bool`.
- **Chart ordering.** The numpy `argsort`/`append` ordering after `function_counts` and `function_times` (reporter.py:140-150, 175-185) is presentation only. `FunctionTimes` stops at the table of times.
- **`function_counts`.** It is left out: a plain sum of count arrays feeding a chart.
- **Plot series.** The plot series of `overall_io_activities`, `offset_vs_rank` and `offset_vs_time` are NaN-separated float plot data and are left out.
- **Number types.** Times are `real`, not IEEE doubles, and bandwidth is real division. Offsets, counts and ranks are unbounded integers.
- **Output.** The debug `print`s, `os.path.abspath` and the command-line front end are left out.
- **Python exceptions.**
  - `record.args[0]` on a metadata call without arguments raises in the source. The model reports it as `ok == false` and keeps no table.
  - Past that point nothing in the source's partial state is observable, so none of it is modelled.
- `FunctionStats.FunctionLayers`: requires every rank's count list to cover the whole catalog (`CountsCover`). A shorter list makes `function_count[func_id]` raise `IndexError`; that failure is not modelled.
- `FunctionStats.FunctionTimes`: requires every catalogued id to be below 2162 (`SlotsCover`). The source indexes its fixed table with any catalogued id and raises for an id of 2162 or more; that failure is not modelled.
- **Dict iteration order.** A Python dict yields its keys in insertion order, which depends on how the interval map was built and is unknown here. The loops pick any remaining key, and every result is proved the same for every order.
