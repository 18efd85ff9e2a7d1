/** One smoothing pass (`simplification`) and the two-pass composition its
    caller applies. */
module Simplification {
  import opened Samples
  import opened Normalization
  import opened Segmentation
  import opened Rules

  /** The rows of a run (`_group`). */
  function RunRows(ys: seq<Sample>, r: Run): seq<Sample>
    requires r.lo <= r.hi <= |ys|
  {
    ys[r.lo..r.hi]
  }

  /** The outcome of the rule chain for the k-th run. Neighbours and rows
      come from the table as it was before any correction. */
  function RunDecision(ys: seq<Sample>, runs: seq<Run>, k: nat): Result<Option<Activity>>
    requires IsPartition(ys, runs) && k < |runs|
  {
    Decide(runs[k].activity, RunRows(ys, runs[k]), Neighbours(runs, k))
  }

  /** The new label of the k-th run, or `None` to keep it. */
  function RunReplacement(ys: seq<Sample>, runs: seq<Run>, k: nat): Option<Activity>
    requires IsPartition(ys, runs) && |runs| >= 3 && k < |runs|
  {
    RunDecision(ys, runs, k).value
  }

  /** Sets the label of a sample when there is a replacement. */
  function Relabel(s: Sample, replacement: Option<Activity>): Sample
  {
    if replacement.Some? then s.(activity := replacement.value) else s
  }

  /** The table after `simplify` has written `replacement` to every row of `r`. */
  function Overwrite(s: seq<Sample>, r: Run, replacement: Option<Activity>): (t: seq<Sample>)
    ensures |t| == |s|
  {
    seq(|s|, i requires 0 <= i < |s| => if r.lo <= i < r.hi then Relabel(s[i], replacement) else s[i])
  }

  /** The table after the first `k` runs have been corrected. */
  function CorrectedUpTo(ys: seq<Sample>, runs: seq<Run>, k: nat): (t: seq<Sample>)
    requires IsPartition(ys, runs) && |runs| >= 3 && k <= |runs|
    ensures |t| == |ys|
  {
    if k == 0 then ys
    else Overwrite(CorrectedUpTo(ys, runs, k - 1), runs[k - 1], RunReplacement(ys, runs, k - 1))
  }

  /** The table after the correction loop. */
  function Corrected(ys: seq<Sample>, runs: seq<Run>): seq<Sample>
    requires IsPartition(ys, runs) && |runs| >= 3
  {
    CorrectedUpTo(ys, runs, |runs|)
  }

  /** One pass: filter, sort, deduplicate, group, and, with three runs or
      more, correct every run. */
  function Pass(xs: seq<Sample>): seq<Sample>
  {
    var ys := Normalize(xs);
    var runs := Segment(ys);
    if |runs| < 3 then ys else Corrected(ys, runs)
  }

  /** The caller's two passes. */
  function TwoPasses(xs: seq<Sample>): seq<Sample>
  {
    Pass(Pass(xs))
  }

  // ---------------------------------------------------------------------
  // The imperative correction phase

  /** The correction loop: for each run in key order, decide its new label
      from the run list and the rows as grouped, and write it to every row of
      the run in `table`. */
  method CorrectRuns(table: array<Sample>, rows: seq<Sample>, runs: seq<Run>)
    requires table[..] == rows
    requires IsPartition(rows, runs) && |runs| >= 3
    modifies table
    ensures table[..] == Corrected(rows, runs)
  {
    for k := 0 to |runs|
      invariant table[..] == CorrectedUpTo(rows, runs, k)
    {
      var group := runs[k];
      var decision := Decide(group.activity, rows[group.lo..group.hi], Neighbours(runs, k));
      var replacement := decision.value;
      if replacement.Some? {
        WriteRun(table, group, replacement.value);
      }
    }
  }

  /** `simplify(replacement)`: write the replacement label to every row of the run. */
  method WriteRun(table: array<Sample>, group: Run, replacement: Activity)
    requires group.lo <= group.hi <= table.Length
    modifies table
    ensures table[..] == Overwrite(old(table[..]), group, Some(replacement))
  {
    for i := group.lo to group.hi
      invariant forall t :: 0 <= t < table.Length ==>
        table[t] == if group.lo <= t < i then old(table[t]).(activity := replacement) else old(table[t])
    {
      table[i] := table[i].(activity := replacement);
    }
  }

  /** A fresh mutable table holding `rows`. */
  method TableOf(rows: seq<Sample>) returns (table: array<Sample>)
    ensures fresh(table) && table[..] == rows
  {
    table := new Sample[|rows|];
    for i := 0 to |rows|
      invariant table[..i] == rows[..i]
    {
      table[i] := rows[i];
    }
  }

  /** `simplification(df)`. */
  method SimplificationPass(input: seq<Sample>) returns (output: seq<Sample>)
    ensures output == Pass(input)
  {
    var rows := Normalize(input);
    var runs := Segment(rows);
    if |runs| < 3 {
      return rows;
    }
    var table := TableOf(rows);
    CorrectRuns(table, rows, runs);
    output := table[..];
  }

  /** `simplification(simplification(df))`. */
  method TwoPassSimplification(input: seq<Sample>) returns (output: seq<Sample>)
    ensures output == TwoPasses(input)
  {
    var first := SimplificationPass(input);
    output := SimplificationPass(first);
  }

  // ---------------------------------------------------------------------
  // Properties of the correction phase

  lemma {:induction false} CorrectedUpToAt(ys: seq<Sample>, runs: seq<Run>, k: nat, j: nat, i: nat)
    requires IsPartition(ys, runs) && |runs| >= 3 && k <= |runs|
    requires j < |runs| && runs[j].lo <= i < runs[j].hi
    ensures CorrectedUpTo(ys, runs, k)[i] == if j < k then Relabel(ys[i], RunReplacement(ys, runs, j)) else ys[i]
  {
    if k > 0 {
      CorrectedUpToAt(ys, runs, k - 1, j, i);
      var m := k - 1;
      if m < j {
        RunsOrdered(ys, runs, m, j);
      } else if j < m {
        RunsOrdered(ys, runs, j, m);
      }
    }
  }

  /** Every row of the j-th run ends with the run's replacement label; no
      other field changes. */
  lemma CorrectedAt(ys: seq<Sample>, runs: seq<Run>, j: nat, i: nat)
    requires IsPartition(ys, runs) && |runs| >= 3
    requires j < |runs| && runs[j].lo <= i < runs[j].hi
    ensures |Corrected(ys, runs)| == |ys|
    ensures Corrected(ys, runs)[i] == Relabel(ys[i], RunReplacement(ys, runs, j))
  {
    CorrectedUpToAt(ys, runs, |runs|, j, i);
  }

  /** A replacement is never `still`, and neither is any label of the table. */
  lemma ReplacementNotStill(ys: seq<Sample>, runs: seq<Run>, j: nat)
    requires IsPartition(ys, runs) && |runs| >= 3 && j < |runs|
    requires forall i :: 0 <= i < |ys| ==> Reliable(ys[i])
    ensures RunReplacement(ys, runs, j) != Some(Still)
  {
    var ctx := Neighbours(runs, j);
    if j > 0 {
      assert ys[runs[j - 1].lo].activity == runs[j - 1].activity;
    }
    if j + 2 < |runs| {
      assert ys[runs[j + 1].lo].activity == runs[j + 1].activity;
    }
  }

  /** Row `i` of the corrected table, found in its run. */
  lemma CorrectedRow(ys: seq<Sample>, runs: seq<Run>, i: nat) returns (j: nat)
    requires IsPartition(ys, runs) && |runs| >= 3 && i < |ys|
    ensures j < |runs| && runs[j].lo <= i < runs[j].hi
    ensures |Corrected(ys, runs)| == |ys|
    ensures Corrected(ys, runs)[i] == Relabel(ys[i], RunReplacement(ys, runs, j))
  {
    j := RunContaining(ys, runs, i);
    CorrectedAt(ys, runs, j, i);
  }

  /** The correction loop only writes labels. */
  lemma CorrectedOnlyRelabels(ys: seq<Sample>, runs: seq<Run>)
    requires IsPartition(ys, runs) && |runs| >= 3
    ensures |Corrected(ys, runs)| == |ys|
    ensures forall i :: 0 <= i < |ys| ==> Corrected(ys, runs)[i] == ys[i].(activity := Corrected(ys, runs)[i].activity)
  {
    forall i | 0 <= i < |ys| ensures Corrected(ys, runs)[i] == ys[i].(activity := Corrected(ys, runs)[i].activity) {
      var j := CorrectedRow(ys, runs, i);
    }
  }

  /** On a table without `still` or inaccurate rows, the correction loop
      writes no `still` label. */
  lemma CorrectedReliable(ys: seq<Sample>, runs: seq<Run>)
    requires IsPartition(ys, runs) && |runs| >= 3
    requires forall i :: 0 <= i < |ys| ==> Reliable(ys[i])
    ensures |Corrected(ys, runs)| == |ys|
    ensures forall i :: 0 <= i < |ys| ==> Reliable(Corrected(ys, runs)[i])
  {
    forall i | 0 <= i < |ys| ensures Reliable(Corrected(ys, runs)[i]) {
      var j := CorrectedRow(ys, runs, i);
      ReplacementNotStill(ys, runs, j);
    }
  }

  /** No rule fires for any run of the table. */
  predicate NoRuleFires(ys: seq<Sample>, runs: seq<Run>)
    requires IsPartition(ys, runs)
  {
    forall k :: 0 <= k < |runs| ==> RunDecision(ys, runs, k) == Ok(None)
  }

  lemma CorrectedNoop(ys: seq<Sample>, runs: seq<Run>)
    requires IsPartition(ys, runs) && |runs| >= 3
    requires NoRuleFires(ys, runs)
    ensures Corrected(ys, runs) == ys
  {
    forall i | 0 <= i < |ys| ensures Corrected(ys, runs)[i] == ys[i] {
      var j := CorrectedRow(ys, runs, i);
    }
    assert |Corrected(ys, runs)| == |ys|;
  }

  /** Changing only labels keeps timestamps strictly increasing. */
  lemma RelabelKeepsOrder(ys: seq<Sample>, zs: seq<Sample>)
    requires |zs| == |ys| && StrictlyIncreasing(ys)
    requires forall i :: 0 <= i < |ys| ==> zs[i] == ys[i].(activity := zs[i].activity)
    ensures StrictlyIncreasing(zs)
  {
    forall i, j | 0 <= i < j < |zs| ensures zs[i].timestamp < zs[j].timestamp {
      assert zs[i].timestamp == ys[i].timestamp && zs[j].timestamp == ys[j].timestamp;
    }
  }

  // ---------------------------------------------------------------------
  // Properties of one pass

  /** A pass only changes labels: the output is the normalized table, row
      for row, with at most the activity label of each row replaced. */
  lemma PassOnlyRelabels(xs: seq<Sample>)
    ensures |Pass(xs)| == |Normalize(xs)|
    ensures forall i :: 0 <= i < |Normalize(xs)| ==>
      Pass(xs)[i] == Normalize(xs)[i].(activity := Pass(xs)[i].activity)
  {
    var ys := Normalize(xs);
    var runs := Segment(ys);
    if |runs| >= 3 {
      CorrectedOnlyRelabels(ys, runs);
    }
  }

  /** Every run of the normalized table still carries one label after the
      pass: a relabelled run gets the same replacement on all its rows. */
  lemma PassRelabelsWholeRuns(xs: seq<Sample>, k: nat, i1: nat, i2: nat)
    requires k < |Segment(Normalize(xs))|
    requires Segment(Normalize(xs))[k].lo <= i1 < Segment(Normalize(xs))[k].hi
    requires Segment(Normalize(xs))[k].lo <= i2 < Segment(Normalize(xs))[k].hi
    ensures |Pass(xs)| == |Normalize(xs)|
    ensures Pass(xs)[i1].activity == Pass(xs)[i2].activity
  {
    var ys := Normalize(xs);
    var runs := Segment(ys);
    if |runs| >= 3 {
      CorrectedAt(ys, runs, k, i1);
      CorrectedAt(ys, runs, k, i2);
    }
  }

  /** After a pass no row is `still` or has an accuracy of 500 m or more, and
      timestamps strictly increase. */
  lemma PassOutputNormal(xs: seq<Sample>)
    ensures StrictlyIncreasing(Pass(xs))
    ensures forall i :: 0 <= i < |Pass(xs)| ==> Reliable(Pass(xs)[i])
  {
    var ys := Normalize(xs);
    var runs := Segment(ys);
    NormalizeSpec(xs);
    forall i | 0 <= i < |ys| ensures Reliable(ys[i]) {
      assert ys[i] in ys;
    }
    if |runs| >= 3 {
      CorrectedReliable(ys, runs);
      CorrectedOnlyRelabels(ys, runs);
      RelabelKeepsOrder(ys, Corrected(ys, runs));
    }
  }

  /** Early exit and fixed point: with fewer than three runs, or when no rule
      fires for any run, the pass returns the normalized table unchanged. */
  lemma PassUnchanged(xs: seq<Sample>)
    requires |Segment(Normalize(xs))| < 3 || NoRuleFires(Normalize(xs), Segment(Normalize(xs)))
    ensures Pass(xs) == Normalize(xs)
  {
    var ys := Normalize(xs);
    var runs := Segment(ys);
    if |runs| >= 3 {
      CorrectedNoop(ys, runs);
    }
  }

  /** The second pass works on a table that normalization leaves alone. */
  lemma SecondPassSkipsNormalization(xs: seq<Sample>)
    ensures Normalize(Pass(xs)) == Pass(xs)
  {
    PassOutputNormal(xs);
    NormalizeNoop(Pass(xs));
  }

  /** Every output row is an input row with at most its label changed. */
  lemma PassRowsFromInput(xs: seq<Sample>, u: Sample)
    requires u in Pass(xs)
    ensures exists x :: x in xs && Reliable(x) && x.(activity := u.activity) == u
  {
    PassOnlyRelabels(xs);
    NormalizeSpec(xs);
    var i :| 0 <= i < |Pass(xs)| && Pass(xs)[i] == u;
    var x := Normalize(xs)[i];
    assert x in Normalize(xs);
  }

  // ---------------------------------------------------------------------
  // Properties of the two passes

  /** After both passes timestamps strictly increase and no row is `still`
      or inaccurate. */
  lemma TwoPassesOrdered(xs: seq<Sample>)
    ensures StrictlyIncreasing(TwoPasses(xs))
    ensures forall i :: 0 <= i < |TwoPasses(xs)| ==> Reliable(TwoPasses(xs)[i])
  {
    PassOutputNormal(Pass(xs));
  }

  /** After both passes every row is an input row with at most its label
      changed. */
  lemma TwoPassesOutput(xs: seq<Sample>, u: Sample)
    requires u in TwoPasses(xs)
    ensures Reliable(u)
    ensures exists x :: x in xs && x.(activity := u.activity) == u
  {
    var first := Pass(xs);
    PassOutputNormal(first);
    var i :| 0 <= i < |Pass(first)| && Pass(first)[i] == u;
    PassRowsFromInput(first, u);
    var y :| y in first && Reliable(y) && y.(activity := u.activity) == u;
    PassRowsFromInput(xs, y);
    var x :| x in xs && Reliable(x) && x.(activity := y.activity) == y;
    assert x in xs && x.(activity := u.activity) == u;
  }

  /** The early exit carries over to the two passes: below three runs both
      passes together return the normalized table. */
  lemma TwoPassesSmallNoop(xs: seq<Sample>)
    requires |Segment(Normalize(xs))| < 3
    ensures TwoPasses(xs) == Normalize(xs)
  {
    PassUnchanged(xs);
    NormalizeIdempotent(xs);
    PassUnchanged(Normalize(xs));
  }

  // ---------------------------------------------------------------------
  // Worked examples

  /** A fast walking blip between two significant in-vehicle runs becomes
      in-vehicle, and so does the whole table. */
  lemma WalkingBlipInVehicle(ys: seq<Sample>, runs: seq<Run>)
    requires IsPartition(ys, runs) && |runs| == 3
    requires runs[0].activity == InVehicle && runs[2].activity == InVehicle
    requires IsOnFoot(runs[1].activity)
    requires runs[0].hi - runs[0].lo >= SignificanceThreshold
    requires runs[2].hi - runs[2].lo >= SignificanceThreshold
    requires Fast(RunRows(ys, runs[1]))
    ensures |Corrected(ys, runs)| == |ys|
    ensures forall i :: 0 <= i < |ys| ==> Corrected(ys, runs)[i].activity == InVehicle
  {
    forall i | 0 <= i < |ys| ensures Corrected(ys, runs)[i].activity == InVehicle {
      var j := RunContaining(ys, runs, i);
      CorrectedAt(ys, runs, j, i);
    }
  }

  /** A short run that no other rule matches borrows the previous run's
      label; the first run, having no previous run, borrows the next one's. */
  lemma ShortRunBorrows(ys: seq<Sample>, runs: seq<Run>, k: nat, i: nat)
    requires IsPartition(ys, runs) && |runs| >= 3 && k < |runs|
    requires runs[k].lo <= i < runs[k].hi
    requires !IsOnFoot(runs[k].activity) && runs[k].activity != InVehicle
    requires runs[k].hi - runs[k].lo < SignificanceThreshold
    ensures |Corrected(ys, runs)| == |ys|
    ensures k > 0 ==> Corrected(ys, runs)[i].activity == runs[k - 1].activity
    ensures k == 0 ==> Corrected(ys, runs)[i].activity == runs[1].activity
  {
    CorrectedAt(ys, runs, k, i);
  }
}
