# Activity-label smoothing

A Dafny model of the activity-label smoothing pass `simplification` of the
activity-recognition engine. The pass takes one trip's location samples and
returns a cleaned table. Each sample has a timestamp, a device-inferred
activity label, a speed and a coordinate accuracy. The pass has five stages:

1. **Filter.** Drop samples labelled `still` and samples whose coordinate
   accuracy is 500 m or worse.
2. **Order.** Sort by timestamp and keep only the first sample of each
   timestamp.
3. **Group.** Split the table into maximal runs of one label, numbered 1..N
   by the cumulative "label changed" counter.
4. **Early exit.** Below three runs, return the table as it is.
5. **Correct.** For each run in order, look up the previous and next run and
   the run's mean speed in km/h. Apply the first matching rule:
   - A: a run on foot, surrounded by `in_vehicle`, faster than 6 km/h, becomes `in_vehicle`.
   - B: a run on foot, surrounded by `on_bicycle`, faster than 6 km/h, becomes `on_bicycle`.
   - C: an `in_vehicle` run surrounded by `on_bicycle` becomes `on_bicycle`.
   - D: a run of fewer than 10 samples takes the previous run's label, else the next run's.

The caller applies the pass twice.

Files:

- `samples.dfy` (module `Samples`) holds the sample record, the activity labels, the reliability predicate and the two `ValueError`s as an `Error` datatype with a `Result` wrapper.
- `normalization.dfy` (module `Normalization`) holds the filter, a stable sort by time and keep-first deduplication. It proves what the normalized table contains.
- `segmentation.dfy` (module `Segmentation`) represents runs as row ranges. It proves that the scan and the cumsum keys describe the same, unique partition.
- `rules.dfy` (module `Rules`) holds the neighbour lookup, `surrounded_by`, the replacement label of `simplify` and the rule chain with its error paths.
- `pass.dfy` (module `Simplification`) holds the correction loop. It works in place on an `array` of samples and is proved against the function `Corrected`. This file also holds one pass, the two passes, and the lemmas about their output.

Modelling decisions:

- **Neighbour labels come from the run list as it was before any correction in the pass.** A relabelling of run k is not seen by run k+1 in the same pass. Whether pandas' `get_group` sees the earlier `.at` writes depends on pandas internals. The model takes the snapshot reading: each run's neighbours are those of the partition built at the start of the pass (src/legacy/simplification.py:21-25).
- **The bound on the next-run lookup follows the code** (`_index < len(_groups) - 1`, src/legacy/simplification.py:58). A reader would expect every run but the last to have a next run; the code gives none to the second-to-last run either. `Rules.Neighbours` models the code. `Rules.IntendedNeighbours` models the bound `key < N`. `Rules.NextBoundDiffers` proves that the two differ exactly on the second-to-last run.
- **The sort is stable, and deduplication keeps the first sample of each timestamp** in that order, as `duplicated(keep='first')` does.
- **Timestamps are one integer count** of a UTC instant.
- **Speeds and accuracies are exact reals.**

## Model

| member | source | states |
|---|---|---|
| Normalization.FilterReliable | src/legacy/simplification.py:8-13 | the kept samples are exactly the input samples that are not `still` and have accuracy below 500, and there are no more of them than input samples |
| Normalization.FilterAppend | src/legacy/simplification.py:8-13 | filtering a concatenation is concatenating the filtered parts, so the filter keeps the input order |
| Normalization.FilterAtTime | src/legacy/simplification.py:8-13 | for every timestamp the filter keeps exactly the reliable input samples of that time, in input order and multiplicity |
| Normalization.SortByTime | src/legacy/simplification.py:16 | defines the sort by timestamp as a stable insertion sort (its properties are the lemmas below) |
| Normalization.SortByTimePermutes | src/legacy/simplification.py:16 | sorting by time only reorders the samples (same multiset) |
| Normalization.SortByTimeSorted | src/legacy/simplification.py:16 | the sorted table has non-decreasing timestamps |
| Normalization.SortByTimeStable | src/legacy/simplification.py:16 | samples of equal timestamp keep their input order after sorting |
| Normalization.InsertAtTime | src/legacy/simplification.py:16 | inserting a sample puts it ahead of the samples already present with its timestamp |
| Normalization.KeepFirst | src/legacy/simplification.py:19 | every kept sample is an input sample whose timestamp was not seen before |
| Normalization.KeepFirstAtTime | src/legacy/simplification.py:19 | of the samples of each timestamp only the first survives deduplication, and none of a timestamp already seen |
| Normalization.KeepFirstStrict | src/legacy/simplification.py:19 | deduplicating a time-sorted table yields strictly increasing timestamps |
| Normalization.Normalize | src/legacy/simplification.py:8-19 | defines the table the grouping sees: filter, then sort, then keep-first deduplication |
| Normalization.NormalizeSpec | src/legacy/simplification.py:8-19 | the normalized table has strictly increasing timestamps, holds only reliable input samples, and for every timestamp holds exactly the first reliable input sample of that time |
| Normalization.NormalizeFirstReliable | src/legacy/simplification.py:8-19 | for every timestamp the normalized table holds the first reliable input sample of that time, and nothing when there is none |
| Normalization.EarlierDuplicateWins | src/legacy/simplification.py:16-19 | of two reliable samples with one timestamp, the one earlier in the input is kept and the other dropped |
| Normalization.NormalizeKeepsTimes | src/legacy/simplification.py:8-19 | every timestamp of a reliable input sample is present after normalization |
| Normalization.NormalizeNoop | src/legacy/simplification.py:8-19 | a reliable table with strictly increasing timestamps is left unchanged by filter, sort and deduplication |
| Normalization.NormalizeIdempotent | src/legacy/simplification.py:8-19 | normalizing twice equals normalizing once |
| Segmentation.RunEnd | src/legacy/simplification.py:21-25 | a run extends over rows of one label and stops at the first row whose label differs |
| Segmentation.Segment | src/legacy/simplification.py:21-25 | the scan yields non-empty, contiguous, single-label runs that cover the table, with neighbouring runs of different labels |
| Segmentation.GroupKeys | src/legacy/simplification.py:21-25 | defines one key per row as the number of label changes up to and including the row, the first row counting as a change |
| Segmentation.GroupKeysNumberRuns | src/legacy/simplification.py:21-25 | the cumsum key of row i is k+1 exactly when row i lies in the k-th run, and every key lies in 1..N |
| Segmentation.KeyInRun | src/legacy/simplification.py:21-25 | every row of the k-th run gets the change count k+1 |
| Segmentation.PartitionUnique | src/legacy/simplification.py:21-25 | two partitions of a table into maximal single-label runs are equal, so the grouping is determined by the table |
| Segmentation.SegmentConcatenates | src/legacy/simplification.py:21-25 | the rows of the runs concatenated in key order give back the table |
| Rules.Neighbours | src/legacy/simplification.py:53-61 | there is a previous run iff the key exceeds 1 and a next run iff the key is below N-1, with the labels of the runs on either side; with N >= 3 every run has a neighbour |
| Rules.IntendedNeighbours | src/legacy/simplification.py:58-61 | the lookup with the bound `key < N`: every run but the last has a next run, the one that follows it |
| Rules.NextBoundDiffers | src/legacy/simplification.py:58-61 | the lookup as written and the lookup with bound N agree on the previous run, and differ only on the second-to-last run, which as written gets no next run |
| Rules.SurroundedBy | src/legacy/simplification.py:77-91 | fails with the context error iff the run has no neighbour; otherwise it is true iff every existing neighbour carries the label |
| Rules.Replacement | src/legacy/simplification.py:63-70 | the borrowed label is the previous run's if there is one, else the next run's, and the replacement error is raised iff there is neither |
| Rules.IsOnFoot | src/legacy/simplification.py:93-94 | defines `on_foot()`: the run is labelled `on_foot` or `walking` |
| Rules.AverageSpeedKmh | src/legacy/simplification.py:49 | defines the mean speed in km/h as the summed km/h speed over the run size |
| Rules.FasterThanWalking | src/legacy/simplification.py:49-51 | the mean speed in km/h exceeds 6 iff 3.6 times the summed m/s speed exceeds 6 times the run size |
| Rules.KmhSumScales | src/legacy/simplification.py:49 | the summed km/h speed is 3.6 times the summed m/s speed |
| Rules.FirstMatch | src/legacy/simplification.py:99-116 | every label written is `in_vehicle`, `on_bicycle` or a neighbour's label, and a significant run that is neither on foot nor `in_vehicle` is left unchanged |
| Rules.Decide | src/legacy/simplification.py:63-116 | the chain with short-circuit evaluation fails iff the run has no neighbour and it is on foot, `in_vehicle` or insignificant, with the error of the first failing call; with a neighbour it agrees with the rule table |
| Rules.NoErrorWithThreeRuns | src/legacy/simplification.py:27 | with at least three runs neither `ValueError` can be raised for any run |
| Simplification.CorrectedUpTo | src/legacy/simplification.py:32-116 | defines the table after the first k runs are corrected; it has the table's length |
| Simplification.Corrected | src/legacy/simplification.py:32-116 | defines the table after the loop over all runs |
| Simplification.Pass | src/legacy/simplification.py:7-119 | defines one pass: the normalized table below three runs, else the corrected table |
| Simplification.TwoPasses | main.py:92-94 | defines the caller's result as the pass applied to the output of the pass |
| Simplification.WriteRun | src/legacy/simplification.py:74-75 | the replacement label is written to every row of the run, and nothing else in the table changes |
| Simplification.CorrectRuns | src/legacy/simplification.py:32-116 | after the loop over the runs in key order, the table is the corrected table: each run relabelled by its own decision |
| Simplification.TableOf | src/legacy/simplification.py:13 | the working table is a fresh array holding exactly the normalized rows |
| Simplification.SimplificationPass | src/legacy/simplification.py:7-119 | the method returns the normalized table below three runs, else the corrected table, as the function `Pass` defines |
| Simplification.TwoPassSimplification | main.py:92-94 | the caller's result is the pass applied to the output of the pass |
| Simplification.CorrectedAt | src/legacy/simplification.py:32-116 | every row of run j ends with run j's replacement label (or its own label when no rule fires), all other fields unchanged |
| Simplification.ReplacementNotStill | src/legacy/simplification.py:63-75 | on a reliable table no run is relabelled `still` |
| Simplification.CorrectedOnlyRelabels | src/legacy/simplification.py:74-75 | the correction loop changes only activity labels |
| Simplification.CorrectedReliable | src/legacy/simplification.py:8-13 | on a reliable table every corrected row is still reliable |
| Simplification.CorrectedNoop | src/legacy/simplification.py:99-116 | when no rule fires for any run the loop leaves the table as it is |
| Simplification.RelabelKeepsOrder | src/legacy/simplification.py:74-75 | changing only labels keeps timestamps strictly increasing |
| Simplification.PassOnlyRelabels | src/legacy/simplification.py:7-119 | the pass output is the normalized table, row for row, with at most the label of each row replaced |
| Simplification.PassRelabelsWholeRuns | src/legacy/simplification.py:63-75 | all rows of a run carry one label after the pass |
| Simplification.PassOutputNormal | src/legacy/simplification.py:8-19 | after a pass no row is `still` or has accuracy 500 or more, and timestamps strictly increase |
| Simplification.PassUnchanged | src/legacy/simplification.py:27 | with fewer than three runs, or when no rule fires, the pass returns the normalized table |
| Simplification.SecondPassSkipsNormalization | main.py:92-94 | normalization leaves the output of a pass unchanged, so the second pass regroups the corrected labels directly |
| Simplification.PassRowsFromInput | src/legacy/simplification.py:7-119 | every output row is a reliable input row with at most its label changed |
| Simplification.TwoPassesOrdered | main.py:92-94 | after both passes timestamps strictly increase and no row is `still` or inaccurate |
| Simplification.TwoPassesOutput | main.py:92-94 | after both passes every row is reliable and is an input row with at most its label changed |
| Simplification.TwoPassesSmallNoop | main.py:92-94 | below three runs both passes together return the normalized table |
| Simplification.WalkingBlipInVehicle | src/legacy/simplification.py:99-103 | a fast on-foot run between two significant `in_vehicle` runs turns the whole three-run table `in_vehicle` |
| Simplification.ShortRunBorrows | src/legacy/simplification.py:113-116 | a short run matched by no other rule takes the previous run's label, and the first run takes the next run's |

## Left out

- Logging (`app.logger`, `termcolor`, the inner `log` helper) has no effect on the table and is not modelled.
- The Flask application, the request handling in `main.py` around the two calls, graph rendering, ride extraction, the schema types and the database are not part of this model.
- The timezone conversion of line 16 is not modelled: a timestamp is an integer count of a UTC instant.
- Floating-point arithmetic and NaN are not modelled. Speeds are exact reals, so an average of exactly 6 km/h is compared exactly, and a missing speed cannot occur.
- Labels are an enumeration: a label string outside the known set is not represented, and the truthiness test of a label (`if _previous_type`) is the same as its presence.
- The sort is modelled as stable. pandas' default `sort_index` is not guaranteed stable, but deduplication afterwards keeps the first row of each timestamp in the sorted order, so with an unstable sort which duplicate survives is unspecified.
- Rules.Neighbours: neighbour labels are read from the pre-correction runs. If pandas' `get_group` observes the earlier in-place writes, a run's previous label would be the corrected one. That reading is not modelled.
- The passthrough columns of a location (latitude, longitude and so on) are carried as one opaque record; their contents are not modelled.
