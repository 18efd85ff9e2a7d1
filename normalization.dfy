/** Stages 1 and 2 of the pass: drop unreliable samples, order by time and
    keep only the first sample of each timestamp. */
module Normalization {
  import opened Samples

  /** Keeps the reliable samples, in their input order. */
  function FilterReliable(xs: seq<Sample>): (r: seq<Sample>)
    ensures |r| <= |xs|
    ensures forall s :: s in r <==> s in xs && Reliable(s)
  {
    if xs == [] then []
    else (if Reliable(xs[0]) then [xs[0]] else []) + FilterReliable(xs[1..])
  }

  /** Inserts `x` before the first sample of `s` whose timestamp is not
      smaller, so that `x` precedes the samples of equal time already there. */
  function Insert(x: Sample, s: seq<Sample>): seq<Sample>
  {
    if s == [] then [x]
    else if x.timestamp <= s[0].timestamp then [x] + s
    else [s[0]] + Insert(x, s[1..])
  }

  /** Stable sort by timestamp (insertion sort). */
  function SortByTime(xs: seq<Sample>): seq<Sample>
  {
    if xs == [] then [] else Insert(xs[0], SortByTime(xs[1..]))
  }

  /** Keeps each sample whose timestamp has not been seen earlier in the
      sequence or in `seen`: `~index.duplicated(keep='first')`. */
  function KeepFirst(xs: seq<Sample>, seen: set<int>): (r: seq<Sample>)
    ensures forall s :: s in r ==> s in xs && s.timestamp !in seen
  {
    if xs == [] then []
    else if xs[0].timestamp in seen then KeepFirst(xs[1..], seen)
    else [xs[0]] + KeepFirst(xs[1..], seen + {xs[0].timestamp})
  }

  function DropDuplicateTimes(xs: seq<Sample>): seq<Sample>
  {
    KeepFirst(xs, {})
  }

  /** Filter, sort and deduplicate: the table the run grouping sees. */
  function Normalize(xs: seq<Sample>): seq<Sample>
  {
    DropDuplicateTimes(SortByTime(FilterReliable(xs)))
  }

  /** The first element of `s`, as a sequence of length at most one. */
  function Head(s: seq<Sample>): seq<Sample>
  {
    if s == [] then [] else [s[0]]
  }

  // ---------------------------------------------------------------------
  // Filtering

  lemma {:induction false} FilterAppend(a: seq<Sample>, b: seq<Sample>)
    ensures FilterReliable(a + b) == FilterReliable(a) + FilterReliable(b)
  {
    if a == [] {
      assert a + b == b;
    } else {
      var c := a + b;
      assert c[0] == a[0] && c[1..] == a[1..] + b;
      FilterAppend(a[1..], b);
      var h := if Reliable(a[0]) then [a[0]] else [];
      assert FilterReliable(c) == h + (FilterReliable(a[1..]) + FilterReliable(b));
      assert FilterReliable(a) == h + FilterReliable(a[1..]);
    }
  }

  /** The filter keeps the input order and multiplicity: the reliable samples
      of each timestamp, in input order, are what it keeps of that time. */
  lemma {:induction false} FilterAtTime(xs: seq<Sample>, t: int)
    ensures AtTime(FilterReliable(xs), t) == FilterReliable(AtTime(xs, t))
  {
    if xs != [] {
      var x := xs[0];
      var kept := if Reliable(x) then [x] else [];
      var here := if x.timestamp == t then [x] else [];
      FilterAtTime(xs[1..], t);
      assert FilterReliable(xs) == kept + FilterReliable(xs[1..]);
      AtTimeAppend(kept, FilterReliable(xs[1..]), t);
      assert AtTime(xs, t) == here + AtTime(xs[1..], t);
      FilterAppend(here, AtTime(xs[1..], t));
      assert AtTime(kept, t) == FilterReliable(here) by {
        AtTimeCons(x, [], t);
        assert [x] + [] == [x];
        assert FilterReliable([x]) == (if Reliable(x) then [x] else []) + FilterReliable([x][1..]);
      }
    }
  }

  // ---------------------------------------------------------------------
  // Sorting

  lemma {:induction false} InsertPermutes(x: Sample, s: seq<Sample>)
    ensures multiset(Insert(x, s)) == multiset(s) + multiset{x}
  {
    if s != [] && x.timestamp > s[0].timestamp {
      InsertPermutes(x, s[1..]);
      assert s == [s[0]] + s[1..];
    }
  }

  /** Sorting only reorders the samples. */
  lemma {:induction false} SortByTimePermutes(xs: seq<Sample>)
    ensures multiset(SortByTime(xs)) == multiset(xs)
  {
    if xs != [] {
      SortByTimePermutes(xs[1..]);
      InsertPermutes(xs[0], SortByTime(xs[1..]));
      assert xs == [xs[0]] + xs[1..];
    }
  }

  lemma {:induction false} InsertSorted(x: Sample, s: seq<Sample>)
    requires SortedByTime(s)
    ensures SortedByTime(Insert(x, s))
  {
    if s == [] {
    } else if x.timestamp <= s[0].timestamp {
    } else {
      InsertSorted(x, s[1..]);
      var rest := Insert(x, s[1..]);
      InsertPermutes(x, s[1..]);
      forall y | y in rest ensures s[0].timestamp <= y.timestamp {
        assert y in multiset(rest);
      }
      assert Insert(x, s) == [s[0]] + rest;
    }
  }

  lemma {:induction false} SortByTimeSorted(xs: seq<Sample>)
    ensures SortedByTime(SortByTime(xs))
  {
    if xs != [] {
      SortByTimeSorted(xs[1..]);
      InsertSorted(xs[0], SortByTime(xs[1..]));
    }
  }

  lemma {:induction false} AtTimeAppend(a: seq<Sample>, b: seq<Sample>, t: int)
    ensures AtTime(a + b, t) == AtTime(a, t) + AtTime(b, t)
  {
    if a == [] {
      assert a + b == b;
    } else {
      var c := a + b;
      assert c[0] == a[0] && c[1..] == a[1..] + b;
      AtTimeAppend(a[1..], b, t);
      var h := if a[0].timestamp == t then [a[0]] else [];
      assert AtTime(c, t) == h + (AtTime(a[1..], t) + AtTime(b, t));
      assert AtTime(a, t) == h + AtTime(a[1..], t);
    }
  }

  lemma AtTimeCons(y: Sample, r: seq<Sample>, t: int)
    ensures AtTime([y] + r, t) == (if y.timestamp == t then [y] else []) + AtTime(r, t)
  {
    assert ([y] + r)[1..] == r;
  }

  /** Inserting `x` puts it ahead of every sample of the same time. */
  lemma {:induction false} InsertAtTime(x: Sample, s: seq<Sample>, t: int)
    ensures AtTime(Insert(x, s), t) == AtTime([x], t) + AtTime(s, t)
  {
    if s == [] || x.timestamp <= s[0].timestamp {
      assert Insert(x, s) == [x] + s;
      AtTimeCons(x, s, t);
      AtTimeCons(x, [], t);
    } else {
      InsertAtTime(x, s[1..], t);
      InsertAtTimeStep(x, s, t);
    }
  }

  lemma InsertAtTimeStep(x: Sample, s: seq<Sample>, t: int)
    requires s != [] && x.timestamp > s[0].timestamp
    requires AtTime(Insert(x, s[1..]), t) == AtTime([x], t) + AtTime(s[1..], t)
    ensures AtTime(Insert(x, s), t) == AtTime([x], t) + AtTime(s, t)
  {
    var rest := Insert(x, s[1..]);
    var tail := AtTime(s[1..], t);
    assert Insert(x, s) == [s[0]] + rest;
    AtTimeCons(s[0], rest, t);
    assert AtTime(s, t) == (if s[0].timestamp == t then [s[0]] else []) + tail;
    assert AtTime([x], t) == (if x.timestamp == t then [x] else []) + AtTime([x][1..], t);
    if x.timestamp == t {
      assert AtTime([x], t) == [x];
      assert AtTime(s, t) == tail;
      assert AtTime(Insert(x, s), t) == [] + AtTime(rest, t);
    } else {
      assert AtTime([x], t) == [];
      assert AtTime(rest, t) == tail;
    }
  }

  /** Stability: samples of equal time keep their input order. */
  lemma {:induction false} SortByTimeStable(xs: seq<Sample>, t: int)
    ensures AtTime(SortByTime(xs), t) == AtTime(xs, t)
  {
    if xs != [] {
      SortByTimeStable(xs[1..], t);
      InsertAtTime(xs[0], SortByTime(xs[1..]), t);
    }
  }

  // ---------------------------------------------------------------------
  // Deduplication

  /** Of the samples stamped `t`, only the first survives (none if `t` was
      already seen). */
  lemma {:induction false} KeepFirstAtTime(xs: seq<Sample>, seen: set<int>, t: int)
    ensures AtTime(KeepFirst(xs, seen), t) == if t in seen then [] else Head(AtTime(xs, t))
  {
    if xs != [] {
      var x := xs[0];
      if x.timestamp in seen {
        KeepFirstAtTime(xs[1..], seen, t);
      } else {
        KeepFirstAtTime(xs[1..], seen + {x.timestamp}, t);
        AtTimeAppend([x], KeepFirst(xs[1..], seen + {x.timestamp}), t);
      }
    }
  }

  lemma {:induction false} KeepFirstStrict(xs: seq<Sample>, seen: set<int>)
    requires SortedByTime(xs)
    ensures StrictlyIncreasing(KeepFirst(xs, seen))
  {
    if xs != [] {
      var x := xs[0];
      SortedTail(xs);
      if x.timestamp in seen {
        KeepFirstStrict(xs[1..], seen);
      } else {
        var seen' := seen + {x.timestamp};
        var rest := KeepFirst(xs[1..], seen');
        KeepFirstStrict(xs[1..], seen');
        forall y | y in rest ensures x.timestamp < y.timestamp {
          SortedHeadBelow(xs, y);
        }
        StrictCons(x, rest);
      }
    }
  }

  lemma SortedTail(xs: seq<Sample>)
    requires SortedByTime(xs) && xs != []
    ensures SortedByTime(xs[1..])
  {
    var tail := xs[1..];
    forall i, j | 0 <= i < j < |tail| ensures tail[i].timestamp <= tail[j].timestamp {
      assert tail[i] == xs[i + 1] && tail[j] == xs[j + 1];
    }
  }

  lemma SortedHeadBelow(xs: seq<Sample>, y: Sample)
    requires SortedByTime(xs) && xs != [] && y in xs[1..]
    ensures xs[0].timestamp <= y.timestamp
  {
    var m :| 0 <= m < |xs[1..]| && xs[1..][m] == y;
    assert xs[m + 1] == y;
  }

  lemma StrictCons(x: Sample, rest: seq<Sample>)
    requires StrictlyIncreasing(rest)
    requires forall y :: y in rest ==> x.timestamp < y.timestamp
    ensures StrictlyIncreasing([x] + rest)
  {
    var r := [x] + rest;
    forall i, j | 0 <= i < j < |r| ensures r[i].timestamp < r[j].timestamp {
      assert r[j] == rest[j - 1];
      if i > 0 {
        assert r[i] == rest[i - 1];
      } else {
        assert rest[j - 1] in rest;
      }
    }
  }

  /** On a table without repeated times, deduplication keeps everything. */
  lemma {:induction false} KeepFirstNoop(xs: seq<Sample>, seen: set<int>)
    requires StrictlyIncreasing(xs)
    requires forall i :: 0 <= i < |xs| ==> xs[i].timestamp !in seen
    ensures KeepFirst(xs, seen) == xs
  {
    if xs != [] {
      var rest := xs[1..];
      assert StrictlyIncreasing(rest);
      forall i | 0 <= i < |rest| ensures rest[i].timestamp !in seen + {xs[0].timestamp} {
        assert rest[i] == xs[i + 1];
      }
      KeepFirstNoop(rest, seen + {xs[0].timestamp});
    }
  }

  lemma {:induction false} SortNoop(xs: seq<Sample>)
    requires SortedByTime(xs)
    ensures SortByTime(xs) == xs
  {
    if xs != [] {
      assert SortedByTime(xs[1..]);
      SortNoop(xs[1..]);
      if |xs| > 1 {
        assert xs[0].timestamp <= xs[1..][0].timestamp;
      }
      assert [xs[0]] + xs[1..] == xs;
    }
  }

  lemma {:induction false} FilterNoop(xs: seq<Sample>)
    requires forall i :: 0 <= i < |xs| ==> Reliable(xs[i])
    ensures FilterReliable(xs) == xs
  {
    if xs != [] {
      assert forall i :: 0 <= i < |xs[1..]| ==> Reliable(xs[1..][i]) by {
        forall i | 0 <= i < |xs[1..]| ensures Reliable(xs[1..][i]) {
          assert xs[1..][i] == xs[i + 1];
        }
      }
      FilterNoop(xs[1..]);
      assert [xs[0]] + xs[1..] == xs;
    }
  }

  // ---------------------------------------------------------------------
  // The normalized table

  /** The normalized table holds the reliable input samples and no other,
      with strictly increasing timestamps; for every timestamp it holds the
      first reliable input sample of that time and only that one. */
  lemma NormalizeSpec(xs: seq<Sample>)
    ensures StrictlyIncreasing(Normalize(xs))
    ensures forall s :: s in Normalize(xs) ==> s in xs && Reliable(s)
    ensures forall t :: AtTime(Normalize(xs), t) == Head(AtTime(FilterReliable(xs), t))
  {
    var f := FilterReliable(xs);
    SortByTimeSorted(f);
    KeepFirstStrict(SortByTime(f), {});
    SortByTimePermutes(f);
    forall s | s in Normalize(xs) ensures s in xs && Reliable(s) {
      assert s in multiset(SortByTime(f));
    }
    forall t ensures AtTime(Normalize(xs), t) == Head(AtTime(f, t)) {
      KeepFirstAtTime(SortByTime(f), {}, t);
      SortByTimeStable(f, t);
    }
  }

  /** The duplicate-timestamp rule over the input itself: for every
      timestamp the normalized table holds the first reliable input sample of
      that time, and nothing if there is none. */
  lemma NormalizeFirstReliable(xs: seq<Sample>, t: int)
    ensures AtTime(Normalize(xs), t) == Head(FilterReliable(AtTime(xs, t)))
  {
    NormalizeSpec(xs);
    FilterAtTime(xs, t);
  }

  /** Of two reliable samples of one timestamp, the earlier one in the input
      is kept and the later one dropped. */
  lemma EarlierDuplicateWins(a: Sample, b: Sample)
    requires Reliable(a) && Reliable(b) && a.timestamp == b.timestamp
    ensures Normalize([a, b]) == [a]
  {
    var f := FilterReliable([a, b]);
    assert f == [a, b] by {
      assert [a, b][1..] == [b];
      assert FilterReliable([b]) == [b] + FilterReliable([b][1..]);
    }
    assert SortByTime([a, b]) == [a, b] by {
      assert [a, b][1..] == [b];
      assert [b][1..] == [];
      assert SortByTime([b]) == Insert(b, []);
    }
    assert KeepFirst([a, b], {}) == [a] by {
      var seen: set<int> := {} + {a.timestamp};
      assert [a, b][1..] == [b] && [b][1..] == [];
      assert KeepFirst([a, b], {}) == [a] + KeepFirst([b], seen);
      assert b.timestamp in seen;
      assert KeepFirst([b], seen) == KeepFirst([], seen);
    }
  }

  /** Every timestamp of a reliable input sample survives normalization. */
  lemma NormalizeKeepsTimes(xs: seq<Sample>, s: Sample)
    requires s in xs && Reliable(s)
    ensures exists u :: u in Normalize(xs) && u.timestamp == s.timestamp
  {
    var t := s.timestamp;
    var f := FilterReliable(xs);
    assert s in AtTime(f, t) by {
      AtTimeHas(f, s);
    }
    NormalizeSpec(xs);
    assert AtTime(Normalize(xs), t) != [];
    var u := AtTime(Normalize(xs), t)[0];
    AtTimeMembers(Normalize(xs), t, u);
  }

  lemma {:induction false} AtTimeMembers(s: seq<Sample>, t: int, u: Sample)
    requires u in AtTime(s, t)
    ensures u in s && u.timestamp == t
  {
    if s[0] != u || s[0].timestamp != t {
      AtTimeCons(s[0], s[1..], t);
      assert s == [s[0]] + s[1..];
      AtTimeMembers(s[1..], t, u);
    }
  }

  lemma {:induction false} AtTimeHas(s: seq<Sample>, x: Sample)
    requires x in s
    ensures x in AtTime(s, x.timestamp)
  {
    if s[0] != x {
      AtTimeHas(s[1..], x);
    }
  }

  /** A table that is already reliable and strictly ordered is left as it is. */
  lemma NormalizeNoop(xs: seq<Sample>)
    requires StrictlyIncreasing(xs)
    requires forall i :: 0 <= i < |xs| ==> Reliable(xs[i])
    ensures Normalize(xs) == xs
  {
    FilterNoop(xs);
    SortNoop(xs);
    KeepFirstNoop(xs, {});
  }

  /** Normalizing twice is normalizing once. */
  lemma NormalizeIdempotent(xs: seq<Sample>)
    ensures Normalize(Normalize(xs)) == Normalize(xs)
  {
    NormalizeSpec(xs);
    var n := Normalize(xs);
    forall i | 0 <= i < |n| ensures Reliable(n[i]) {
      assert n[i] in n;
    }
    NormalizeNoop(n);
  }
}
