/** Stages 4 and 5 of the pass, for one run: look up the neighbouring runs,
    then apply the ordered correction rules. */
module Rules {
  import opened Samples
  import opened Segmentation

  /** Runs shorter than this are insignificant. */
  const SignificanceThreshold: nat := 10

  /** The highest average speed (km/h) a person realistically walks at. */
  const MaxWalkingSpeedKmh: real := 6.0

  /** The labels of the previous and next run, where they exist. */
  datatype Context = Context(previous: Option<Activity>, next: Option<Activity>)

  predicate HasNeighbour(ctx: Context)
  {
    ctx.previous.Some? || ctx.next.Some?
  }

  /** The neighbours of the run at 0-based position `k`, whose group key is
      `k + 1`, read from the run list built before any correction. A next run
      is only looked up while the key is below N - 1. */
  function Neighbours(runs: seq<Run>, k: nat): (ctx: Context)
    requires k < |runs|
    ensures ctx.previous.Some? <==> k > 0
    ensures ctx.next.Some? <==> k + 2 < |runs|
    ensures ctx.previous.Some? ==> ctx.previous.value == runs[k - 1].activity
    ensures ctx.next.Some? ==> ctx.next.value == runs[k + 1].activity
    ensures |runs| >= 3 ==> HasNeighbour(ctx)
  {
    var key := k + 1;
    Context(
      if key > 1 then Some(runs[key - 2].activity) else None,
      if key < |runs| - 1 then Some(runs[key].activity) else None)
  }

  /** The lookup with the bound `key < N`: every run but the last has a next. */
  function IntendedNeighbours(runs: seq<Run>, k: nat): (ctx: Context)
    requires k < |runs|
    ensures ctx.next.Some? <==> k + 1 < |runs|
    ensures ctx.next.Some? ==> ctx.next.value == runs[k + 1].activity
  {
    var key := k + 1;
    Context(
      if key > 1 then Some(runs[key - 2].activity) else None,
      if key < |runs| then Some(runs[key].activity) else None)
  }

  /** The two lookups disagree exactly on the second-to-last run, which the
      lookup as written leaves without a next run. */
  lemma NextBoundDiffers(runs: seq<Run>, k: nat)
    requires k < |runs|
    ensures Neighbours(runs, k).previous == IntendedNeighbours(runs, k).previous
    ensures Neighbours(runs, k) != IntendedNeighbours(runs, k) <==> k == |runs| - 2
    ensures k == |runs| - 2 ==>
      Neighbours(runs, k).next == None && IntendedNeighbours(runs, k).next == Some(runs[k + 1].activity)
  {
  }

  /** `on_foot()`: the run is labelled on_foot or walking. */
  predicate IsOnFoot(a: Activity)
  {
    a == OnFoot || a == Walking
  }

  /** Every neighbour that exists carries label `a`, and one exists. */
  predicate Surrounded(ctx: Context, a: Activity)
  {
    && HasNeighbour(ctx)
    && (ctx.previous.Some? ==> ctx.previous.value == a)
    && (ctx.next.Some? ==> ctx.next.value == a)
  }

  /** `surrounded_by(a)`, failing when the run has no neighbour. */
  function SurroundedBy(ctx: Context, a: Activity): (r: Result<bool>)
    ensures r.Err? <==> !HasNeighbour(ctx)
    ensures r.Err? ==> r.error == ContextUnavailable
    ensures r.Ok? ==> r.value == Surrounded(ctx, a)
  {
    if ctx.previous.Some? && ctx.next.Some? then Ok(ctx.previous.value == a && ctx.next.value == a)
    else if ctx.next.Some? then Ok(ctx.next.value == a)
    else if ctx.previous.Some? then Ok(ctx.previous.value == a)
    else Err(ContextUnavailable)
  }

  /** The label borrowed by `simplify()`: the previous run's, else the next run's. */
  function Replacement(ctx: Context): (r: Result<Activity>)
    ensures r.Err? <==> !HasNeighbour(ctx)
    ensures r.Err? ==> r.error == NoReplacementLabel
    ensures r.Ok? && ctx.previous.Some? ==> r.value == ctx.previous.value
    ensures r.Ok? && ctx.previous.None? ==> Some(r.value) == ctx.next
  {
    if ctx.previous.Some? then Ok(ctx.previous.value)
    else if ctx.next.Some? then Ok(ctx.next.value)
    else Err(NoReplacementLabel)
  }

  /** Speed in m/s summed over a run. */
  function SpeedSum(seg: seq<Sample>): real
  {
    if seg == [] then 0.0 else seg[0].speed + SpeedSum(seg[1..])
  }

  /** Speed converted to km/h, summed over a run. */
  function KmhSum(seg: seq<Sample>): real
  {
    if seg == [] then 0.0 else seg[0].speed * 3.6 + KmhSum(seg[1..])
  }

  /** `(speed * 3.6).mean()` over the run's samples. */
  function AverageSpeedKmh(seg: seq<Sample>): real
    requires |seg| > 0
  {
    KmhSum(seg) / (|seg| as real)
  }

  /** The mean in km/h is 3.6 times the mean in m/s. */
  lemma {:induction false} KmhSumScales(seg: seq<Sample>)
    ensures KmhSum(seg) == 3.6 * SpeedSum(seg)
  {
    if seg != [] {
      KmhSumScales(seg[1..]);
    }
  }

  /** The speed test `_avg_speed > 6` holds iff 3.6 times the summed speed
      exceeds 6 times the run's size. */
  lemma FasterThanWalking(seg: seq<Sample>)
    requires |seg| > 0
    ensures AverageSpeedKmh(seg) > MaxWalkingSpeedKmh <==> 3.6 * SpeedSum(seg) > 6.0 * (|seg| as real)
  {
    KmhSumScales(seg);
    var n := |seg| as real;
    assert AverageSpeedKmh(seg) * n == KmhSum(seg);
  }

  predicate Fast(seg: seq<Sample>)
    requires |seg| > 0
  {
    AverageSpeedKmh(seg) > MaxWalkingSpeedKmh
  }

  // The four rules of the table, each as its own condition.

  predicate RuleA(a: Activity, seg: seq<Sample>, ctx: Context)
    requires |seg| > 0
  {
    IsOnFoot(a) && Surrounded(ctx, InVehicle) && Fast(seg)
  }

  predicate RuleB(a: Activity, seg: seq<Sample>, ctx: Context)
    requires |seg| > 0
  {
    IsOnFoot(a) && Surrounded(ctx, OnBicycle) && Fast(seg)
  }

  predicate RuleC(a: Activity, ctx: Context)
  {
    a == InVehicle && Surrounded(ctx, OnBicycle)
  }

  predicate RuleD(seg: seq<Sample>)
  {
    |seg| < SignificanceThreshold
  }

  function Borrowed(ctx: Context): Activity
    requires HasNeighbour(ctx)
  {
    if ctx.previous.Some? then ctx.previous.value else ctx.next.value
  }

  /** The rule table read top to bottom: the first rule that holds decides
      the new label of the run; `None` leaves it unchanged. Every label it
      writes is a constant of the table or a neighbour's label, and a
      significant run that is neither on foot nor in a vehicle is kept. */
  function FirstMatch(a: Activity, seg: seq<Sample>, ctx: Context): (r: Option<Activity>)
    requires |seg| > 0 && HasNeighbour(ctx)
    ensures r.Some? ==> r.value == InVehicle || r.value == OnBicycle || Some(r.value) == ctx.previous || Some(r.value) == ctx.next
    ensures !IsOnFoot(a) && a != InVehicle && !RuleD(seg) ==> r == None
  {
    if RuleA(a, seg, ctx) then Some(InVehicle)
    else if RuleB(a, seg, ctx) then Some(OnBicycle)
    else if RuleC(a, ctx) then Some(OnBicycle)
    else if RuleD(seg) then Some(Borrowed(ctx))
    else None
  }

  /** `simplify()` for an insignificant run; a significant run is kept. */
  function SimplifyIfInsignificant(seg: seq<Sample>, ctx: Context): Result<Option<Activity>>
  {
    if |seg| < SignificanceThreshold then
      var replacement :- Replacement(ctx);
      Ok(Some(replacement))
    else Ok(None)
  }

  /** The if/elif chain of the correction loop for one run, with the
      short-circuit evaluation of its conditions: `surrounded_by` is only
      evaluated (and can only fail) when the label test before it holds.
      It fails exactly when the run has no neighbour and some evaluated
      condition needs one; otherwise it agrees with the rule table. */
  function Decide(a: Activity, seg: seq<Sample>, ctx: Context): (r: Result<Option<Activity>>)
    requires |seg| > 0
    ensures r.Err? <==> !HasNeighbour(ctx) && (IsOnFoot(a) || a == InVehicle || RuleD(seg))
    ensures r.Err? ==> r.error == (if IsOnFoot(a) || a == InVehicle then ContextUnavailable else NoReplacementLabel)
    ensures HasNeighbour(ctx) ==> r == Ok(FirstMatch(a, seg, ctx))
  {
    var fast := AverageSpeedKmh(seg) > MaxWalkingSpeedKmh;
    if IsOnFoot(a) then
      var byVehicle :- SurroundedBy(ctx, InVehicle);
      if byVehicle && fast then Ok(Some(InVehicle))
      else
        match SurroundedBy(ctx, OnBicycle)
        case Err(e) => Err(e)
        case Ok(byBicycle) =>
          if byBicycle && fast then Ok(Some(OnBicycle))
          else SimplifyIfInsignificant(seg, ctx)
    else if a == InVehicle then
      var byBicycle :- SurroundedBy(ctx, OnBicycle);
      if byBicycle then Ok(Some(OnBicycle))
      else SimplifyIfInsignificant(seg, ctx)
    else SimplifyIfInsignificant(seg, ctx)
  }

  /** With at least three runs neither `ValueError` can be raised for any run. */
  lemma NoErrorWithThreeRuns(runs: seq<Run>, k: nat, seg: seq<Sample>)
    requires |runs| >= 3 && k < |runs| && |seg| > 0
    ensures Decide(runs[k].activity, seg, Neighbours(runs, k)).Ok?
    ensures SurroundedBy(Neighbours(runs, k), InVehicle).Ok?
    ensures Replacement(Neighbours(runs, k)).Ok?
  {
  }
}
