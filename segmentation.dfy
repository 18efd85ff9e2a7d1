/** Stage 3 of the pass: split the normalized table into maximal runs of one
    label, numbered 1..N by the change-counter `cumsum` the grouping uses. */
module Segmentation {
  import opened Samples

  /** A run is the half-open row range [lo, hi) of the table and its label. */
  datatype Run = Run(activity: Activity, lo: nat, hi: nat)

  /** `runs` tiles `xs[from..]`: each run is non-empty, the runs are
      contiguous and end at the end of `xs`, every sample of a run carries
      the run's label, and neighbouring runs carry different labels. */
  predicate Tiles(xs: seq<Sample>, runs: seq<Run>, from: nat)
  {
    && from <= |xs|
    && (|runs| == 0 <==> from == |xs|)
    && (|runs| > 0 ==> runs[0].lo == from && runs[|runs| - 1].hi == |xs|)
    && (forall k :: 0 <= k < |runs| ==> runs[k].lo < runs[k].hi <= |xs|)
    && (forall k :: 0 <= k < |runs| - 1 ==> runs[k].hi == runs[k + 1].lo)
    && (forall k :: 0 <= k < |runs| - 1 ==> runs[k].activity != runs[k + 1].activity)
    && (forall k, i :: 0 <= k < |runs| && runs[k].lo <= i < runs[k].hi ==> xs[i].activity == runs[k].activity)
  }

  /** `runs` splits all of `xs` into maximal same-label runs. */
  predicate IsPartition(xs: seq<Sample>, runs: seq<Run>)
  {
    Tiles(xs, runs, 0)
  }

  /** The end of the same-label stretch that starts at `lo`. */
  function RunEnd(xs: seq<Sample>, lo: nat): (hi: nat)
    requires lo < |xs|
    ensures lo < hi <= |xs|
    ensures forall i :: lo <= i < hi ==> xs[i].activity == xs[lo].activity
    ensures hi < |xs| ==> xs[hi].activity != xs[lo].activity
    decreases |xs| - lo
  {
    if lo + 1 < |xs| && xs[lo + 1].activity == xs[lo].activity then RunEnd(xs, lo + 1) else lo + 1
  }

  /** The runs of `xs[from..]`, scanned left to right. */
  function SegmentFrom(xs: seq<Sample>, from: nat): (runs: seq<Run>)
    requires from <= |xs|
    ensures Tiles(xs, runs, from)
    ensures |runs| > 0 ==> runs[0].activity == xs[from].activity
    decreases |xs| - from
  {
    if from == |xs| then []
    else
      var hi := RunEnd(xs, from);
      var rest := SegmentFrom(xs, hi);
      TilesCons(xs, Run(xs[from].activity, from, hi), rest);
      [Run(xs[from].activity, from, hi)] + rest
  }

  /** A maximal first run followed by a tiling of the rest tiles the whole. */
  lemma TilesCons(xs: seq<Sample>, r: Run, rest: seq<Run>)
    requires r.lo < r.hi <= |xs| && Tiles(xs, rest, r.hi)
    requires forall i :: r.lo <= i < r.hi ==> xs[i].activity == r.activity
    requires r.hi < |xs| ==> xs[r.hi].activity != r.activity
    requires |rest| > 0 ==> rest[0].activity == xs[r.hi].activity
    ensures Tiles(xs, [r] + rest, r.lo)
  {
    var runs := [r] + rest;
    forall k | 0 <= k < |runs|
      ensures runs[k].lo < runs[k].hi <= |xs|
      ensures forall i :: runs[k].lo <= i < runs[k].hi ==> xs[i].activity == runs[k].activity
    {
      if k > 0 {
        assert runs[k] == rest[k - 1];
      }
    }
    forall k | 0 <= k < |runs| - 1
      ensures runs[k].hi == runs[k + 1].lo && runs[k].activity != runs[k + 1].activity
    {
      assert runs[k + 1] == rest[k];
      if k > 0 {
        assert runs[k] == rest[k - 1];
      }
    }
    if rest != [] {
      assert runs[|runs| - 1] == rest[|rest| - 1];
    }
  }

  /** The groups of the table, in key order. */
  function Segment(xs: seq<Sample>): (runs: seq<Run>)
    ensures IsPartition(xs, runs)
  {
    SegmentFrom(xs, 0)
  }

  // ---------------------------------------------------------------------
  // The change counter

  /** Row `i` starts a new group: its label differs from the row before
      (the first row compares against the missing value of `shift()`). */
  predicate Changes(xs: seq<Sample>, i: nat)
    requires i < |xs|
  {
    i == 0 || xs[i].activity != xs[i - 1].activity
  }

  /** The running sum of `Changes` over the first `n` rows. */
  function CountChanges(xs: seq<Sample>, n: nat): nat
    requires n <= |xs|
  {
    if n == 0 then 0 else CountChanges(xs, n - 1) + (if Changes(xs, n - 1) then 1 else 0)
  }

  /** The group key of every row: `(type != type.shift()).cumsum()`. */
  function GroupKeys(xs: seq<Sample>): (keys: seq<nat>)
    ensures |keys| == |xs|
  {
    seq(|xs|, i requires 0 <= i < |xs| => CountChanges(xs, i + 1))
  }

  // ---------------------------------------------------------------------
  // Properties of partitions

  lemma {:induction false} RunsOrdered(xs: seq<Sample>, runs: seq<Run>, j: nat, m: nat)
    requires IsPartition(xs, runs)
    requires j < m < |runs|
    ensures runs[j].hi <= runs[m].lo
    decreases m - j
  {
    if j + 1 < m {
      RunsOrdered(xs, runs, j + 1, m);
    }
  }

  /** Every row lies in some run. */
  lemma RunContaining(xs: seq<Sample>, runs: seq<Run>, i: nat) returns (k: nat)
    requires IsPartition(xs, runs)
    requires i < |xs|
    ensures k < |runs| && runs[k].lo <= i < runs[k].hi
  {
    k := 0;
    while runs[k].hi <= i
      invariant k < |runs| && runs[k].lo <= i
      decreases |runs| - k
    {
      k := k + 1;
    }
  }

  /** Every row of the k-th run (0-based) gets group key k + 1. */
  lemma {:induction false} KeyInRun(xs: seq<Sample>, runs: seq<Run>, k: nat, i: nat)
    requires IsPartition(xs, runs)
    requires k < |runs| && runs[k].lo <= i < runs[k].hi
    ensures CountChanges(xs, i + 1) == k + 1
    decreases k, i - runs[k].lo
  {
    if i > runs[k].lo {
      KeyInRun(xs, runs, k, i - 1);
    } else if k > 0 {
      assert runs[k - 1].hi == i;
      KeyInRun(xs, runs, k - 1, i - 1);
    }
  }

  /** The grouping by key is exactly the partition into runs: row `i` has
      key `k + 1` iff it lies in the k-th run, and keys range over 1..N. */
  lemma GroupKeysNumberRuns(xs: seq<Sample>, runs: seq<Run>)
    requires IsPartition(xs, runs)
    ensures forall i :: 0 <= i < |xs| ==> 1 <= GroupKeys(xs)[i] <= |runs|
    ensures forall k, i :: 0 <= k < |runs| && 0 <= i < |xs| ==>
      (GroupKeys(xs)[i] == k + 1 <==> runs[k].lo <= i < runs[k].hi)
  {
    forall i | 0 <= i < |xs|
      ensures 1 <= GroupKeys(xs)[i] <= |runs|
      ensures forall k :: 0 <= k < |runs| ==> (GroupKeys(xs)[i] == k + 1 <==> runs[k].lo <= i < runs[k].hi)
    {
      var j := RunContaining(xs, runs, i);
      KeyInRun(xs, runs, j, i);
      forall k | 0 <= k < |runs| && k != j ensures !(runs[k].lo <= i < runs[k].hi) {
        if k < j { RunsOrdered(xs, runs, k, j); } else { RunsOrdered(xs, runs, j, k); }
      }
    }
  }

  /** There is only one partition into maximal runs, so `Segment` is it. */
  lemma PartitionUnique(xs: seq<Sample>, r1: seq<Run>, r2: seq<Run>)
    requires IsPartition(xs, r1) && IsPartition(xs, r2)
    ensures r1 == r2
  {
    if |xs| > 0 {
      KeyInRun(xs, r1, |r1| - 1, |xs| - 1);
      KeyInRun(xs, r2, |r2| - 1, |xs| - 1);
      GroupKeysNumberRuns(xs, r1);
      GroupKeysNumberRuns(xs, r2);
      forall k | 0 <= k < |r1| ensures r1[k] == r2[k] {
        var keys := GroupKeys(xs);
        assert keys[r1[k].lo] == k + 1 && keys[r2[k].lo] == k + 1;
        assert keys[r1[k].hi - 1] == k + 1 && keys[r2[k].hi - 1] == k + 1;
      }
    }
  }

  /** The rows of each run, concatenated in run order. */
  function Pieces(xs: seq<Sample>, runs: seq<Run>): seq<Sample>
    requires forall k :: 0 <= k < |runs| ==> runs[k].lo <= runs[k].hi <= |xs|
  {
    if runs == [] then [] else xs[runs[0].lo..runs[0].hi] + Pieces(xs, runs[1..])
  }

  /** The runs, concatenated in key order, give back the table. */
  lemma {:induction false} PiecesTile(xs: seq<Sample>, runs: seq<Run>, from: nat)
    requires Tiles(xs, runs, from)
    ensures Pieces(xs, runs) == xs[from..]
  {
    if runs != [] {
      var rest := runs[1..];
      assert Tiles(xs, rest, runs[0].hi) by {
        assert forall k :: 0 <= k < |rest| ==> rest[k] == runs[k + 1];
      }
      PiecesTile(xs, rest, runs[0].hi);
      assert xs[from..runs[0].hi] + xs[runs[0].hi..] == xs[from..];
    }
  }

  lemma SegmentConcatenates(xs: seq<Sample>)
    ensures Pieces(xs, Segment(xs)) == xs
  {
    PiecesTile(xs, Segment(xs), 0);
  }
}
