/** The data the smoothing pass works on: one location sample per sensor
    reading, its activity label, and the two errors the pass can raise. */
module Samples {

  /** The activity labels a sample can carry (`activity.type`). */
  datatype Activity = OnFoot | Walking | Running | OnBicycle | Still | InVehicle | Unknown

  /** The fields of a location the pass never reads but carries through. */
  datatype Passthrough = Passthrough(
    latitude: real,
    longitude: real,
    altitude: real,
    heading: real,
    headingAccuracy: real,
    speedAccuracy: real,
    confidence: real)

  /** One location sample. `timestamp` is the UTC instant as an integer
      count that preserves its order, `speed` is in m/s and `accuracy` is
      `coordinates.coordinateAccuracy` in metres. */
  datatype Sample = Sample(
    timestamp: int,
    activity: Activity,
    speed: real,
    accuracy: real,
    extra: Passthrough)

  /** Accuracy (in metres) from which a coordinate is discarded. */
  const AccuracyLimit: real := 500.0

  /** The filter's predicate: not `still` and a coordinate accuracy below 500 m. */
  predicate Reliable(s: Sample)
  {
    s.activity != Still && s.accuracy < AccuracyLimit
  }

  /** The two `ValueError`s of the correction phase. */
  datatype Error =
    | NoReplacementLabel   // `simplify()` with neither a previous nor a next run
    | ContextUnavailable   // `surrounded_by` with neither a previous nor a next run

  datatype Option<T> = None | Some(value: T)

  datatype Result<T> = Ok(value: T) | Err(error: Error) {
    predicate IsFailure() { Err? }

    function PropagateFailure<U>(): Result<U>
      requires Err?
    {
      Err(error)
    }

    function Extract(): T
      requires Ok?
    {
      value
    }
  }

  /** Timestamps strictly increase along `s`. */
  predicate StrictlyIncreasing(s: seq<Sample>)
  {
    forall i, j :: 0 <= i < j < |s| ==> s[i].timestamp < s[j].timestamp
  }

  /** Timestamps never decrease along `s`. */
  predicate SortedByTime(s: seq<Sample>)
  {
    forall i, j :: 0 <= i < j < |s| ==> s[i].timestamp <= s[j].timestamp
  }

  /** The samples of `s` stamped `t`, in the order of `s`. */
  function AtTime(s: seq<Sample>, t: int): (r: seq<Sample>)
  {
    if s == [] then []
    else (if s[0].timestamp == t then [s[0]] else []) + AtTime(s[1..], t)
  }
}
