/** The fixed-bucket histogram against the observations it has seen: buckets,
    cumulative export, and percentiles. Doubles are reals; NaN and the
    infinities are one extra sample value. */
module Histograms {
  import opened Prelude

  datatype Sample = Finite(v: real) | NotFinite

  /** The value that is counted for a sample. */
  function Cleaned(x: Sample): real {
    if x.NotFinite? || x.v < 0.0 then 0.0 else x.v
  }

  const BOUNDS: seq<real> :=
    [0.001, 0.002, 0.005, 0.01, 0.02, 0.05, 0.1, 0.2, 0.5, 1.0, 2.0, 5.0, 10.0, 20.0, 30.0]

  datatype Snapshot = Snapshot(bounds: seq<real>, counts: seq<nat>, count: nat, sumUs: nat)

  ghost predicate Increasing(bounds: seq<real>) {
    && (forall i, j :: 0 <= i < j < |bounds| ==> bounds[i] < bounds[j])
    && (forall i :: 0 <= i < |bounds| ==> bounds[i] > 0.0)
  }

  lemma BoundsIncrease()
    ensures |BOUNDS| == 15 && Increasing(BOUNDS)
  {
    IncreasingBySteps(BOUNDS);
  }

  lemma IncreasingBySteps(bounds: seq<real>)
    requires |bounds| > 0 && bounds[0] > 0.0
    requires forall i :: 0 < i < |bounds| ==> bounds[i - 1] < bounds[i]
    ensures Increasing(bounds)
  {
    forall i, j | 0 <= i < j < |bounds|
      ensures bounds[i] < bounds[j]
    {
      Ascends(bounds, i, j);
    }
    forall i | 0 <= i < |bounds|
      ensures bounds[i] > 0.0
    {
      if i > 0 {
        Ascends(bounds, 0, i);
      }
    }
  }

  lemma {:induction false} Ascends(bounds: seq<real>, i: nat, j: nat)
    requires i < j < |bounds| && forall k :: 0 < k < |bounds| ==> bounds[k - 1] < bounds[k]
    ensures bounds[i] < bounds[j]
    decreases j - i
  {
    assert bounds[j - 1] < bounds[j];
    if i < j - 1 {
      Ascends(bounds, i, j - 1);
    }
  }

  // ---------------------------------------------------------------- counting

  function BucketFrom(bounds: seq<real>, v: real, i: nat): nat
    decreases |bounds| - i
  {
    if i >= |bounds| || v <= bounds[i] then i else BucketFrom(bounds, v, i + 1)
  }

  /** The first bucket whose bound is not below the value; the last bucket is unbounded. */
  function BucketOf(bounds: seq<real>, v: real): nat {
    BucketFrom(bounds, v, 0)
  }

  lemma {:induction false} BucketFromIs(bounds: seq<real>, v: real, i: nat)
    requires i <= |bounds| && forall j :: 0 <= j < i ==> bounds[j] < v
    ensures var b := BucketFrom(bounds, v, i);
            && i <= b <= |bounds| && (b < |bounds| ==> v <= bounds[b]) && forall j :: 0 <= j < b ==> bounds[j] < v
    decreases |bounds| - i
  {
    if i < |bounds| && v > bounds[i] {
      BucketFromIs(bounds, v, i + 1);
    }
  }

  function CountIn(seen: seq<real>, bounds: seq<real>, k: nat): nat {
    if seen == [] then 0
    else CountIn(seen[..|seen| - 1], bounds, k) + if BucketOf(bounds, seen[|seen| - 1]) == k then 1 else 0
  }

  function CountAtMost(seen: seq<real>, b: real): nat {
    if seen == [] then 0 else CountAtMost(seen[..|seen| - 1], b) + if seen[|seen| - 1] <= b then 1 else 0
  }

  function CountBelow(seen: seq<real>, b: real): nat {
    if seen == [] then 0 else CountBelow(seen[..|seen| - 1], b) + if seen[|seen| - 1] < b then 1 else 0
  }

  function Micros(seen: seq<real>): nat
    requires forall i :: 0 <= i < |seen| ==> seen[i] >= 0.0
  {
    if seen == [] then 0 else Micros(seen[..|seen| - 1]) + (seen[|seen| - 1] * 1000000.0).Floor
  }

  function Cumulative(counts: seq<nat>, k: nat): nat
    requires k < |counts|
  {
    counts[k] + if k == 0 then 0 else Cumulative(counts, k - 1)
  }

  /** The snapshot counts exactly these observations. */
  ghost predicate Counts(h: Snapshot, seen: seq<real>) {
    && Increasing(h.bounds) && |h.counts| == |h.bounds| + 1 && h.count == |seen|
    && (forall k: nat :: k < |h.counts| ==> h.counts[k] == CountIn(seen, h.bounds, k))
  }

  /** Observations that fall into bucket k or an earlier one. */
  function CountUpTo(seen: seq<real>, bounds: seq<real>, k: nat): nat {
    if seen == [] then 0
    else CountUpTo(seen[..|seen| - 1], bounds, k) + if BucketOf(bounds, seen[|seen| - 1]) <= k then 1 else 0
  }

  lemma {:induction false} UpToNext(seen: seq<real>, bounds: seq<real>, k: nat)
    ensures CountUpTo(seen, bounds, k)
            == CountIn(seen, bounds, k) + if k == 0 then 0 else CountUpTo(seen, bounds, k - 1)
    decreases |seen|
  {
    if seen != [] {
      UpToNext(seen[..|seen| - 1], bounds, k);
    }
  }

  lemma {:induction false} CumulativeIsUpTo(h: Snapshot, seen: seq<real>, k: nat)
    requires Counts(h, seen) && k < |h.counts|
    ensures Cumulative(h.counts, k) == CountUpTo(seen, h.bounds, k)
    decreases k
  {
    UpToNext(seen, h.bounds, k);
    if k > 0 {
      CumulativeIsUpTo(h, seen, k - 1);
    }
  }

  lemma {:induction false} UpToIsAtMost(seen: seq<real>, bounds: seq<real>, k: nat)
    requires Increasing(bounds)
    ensures k < |bounds| ==> CountUpTo(seen, bounds, k) == CountAtMost(seen, bounds[k])
    ensures k >= |bounds| ==> CountUpTo(seen, bounds, k) == |seen|
    decreases |seen|
  {
    if seen != [] {
      var v := seen[|seen| - 1];
      UpToIsAtMost(seen[..|seen| - 1], bounds, k);
      BucketFromIs(bounds, v, 0);
      var b := BucketOf(bounds, v);
      if k < |bounds| && b <= k {
        assert bounds[b] <= bounds[k];
      }
    }
  }

  /** Every cumulative count is the number of observations at or below its
      bound, and the last one is the number of all observations. */
  lemma CumulativeCountsObservations(h: Snapshot, seen: seq<real>, k: nat)
    requires Counts(h, seen) && k < |h.counts|
    ensures k < |h.bounds| ==> Cumulative(h.counts, k) == CountAtMost(seen, h.bounds[k])
    ensures k == |h.bounds| ==> Cumulative(h.counts, k) == h.count
  {
    CumulativeIsUpTo(h, seen, k);
    UpToIsAtMost(seen, h.bounds, k);
  }

  lemma {:induction false} AtMostGrows(seen: seq<real>, a: real, b: real)
    ensures a <= b ==> CountAtMost(seen, a) <= CountAtMost(seen, b)
    ensures a < b ==> CountAtMost(seen, a) <= CountBelow(seen, b)
    ensures CountAtMost(seen, a) <= |seen|
    decreases |seen|
  {
    if seen != [] {
      AtMostGrows(seen[..|seen| - 1], a, b);
    }
  }

  /** A finite sample counts towards every bound it does not exceed, a negative
      or non-finite one towards all of them. */
  lemma SampleCounts(seen: seq<real>, x: Sample, b: real)
    requires b >= 0.0
    ensures CountAtMost(seen + [Cleaned(x)], b)
         == CountAtMost(seen, b) + if x.NotFinite? || x.v <= b then 1 else 0
  {
    assert (seen + [Cleaned(x)])[..|seen|] == seen;
  }

  function TotalOf(seen: seq<real>): real {
    if seen == [] then 0.0 else TotalOf(seen[..|seen| - 1]) + seen[|seen| - 1]
  }

  /** The sum in microseconds loses less than one microsecond per observation. */
  lemma {:induction false} MicrosIs(seen: seq<real>)
    requires forall i :: 0 <= i < |seen| ==> seen[i] >= 0.0
    ensures Micros(seen) as real <= TotalOf(seen) * 1_000_000.0 <= (Micros(seen) + |seen|) as real
    decreases |seen|
  {
    if seen != [] {
      MicrosIs(seen[..|seen| - 1]);
    }
  }

  // ---------------------------------------------------------------- export

  /** One exported bucket line; no bound stands for +Inf. */
  datatype Line = Line(le: Option<real>, cum: nat)

  method ExportLines(h: Snapshot) returns (lines: seq<Line>)
    ensures h.counts == [] ==> lines == [Line(None, 0)]
    ensures h.counts != [] ==> |lines| == |h.counts|
    ensures h.counts != [] ==>
              forall i: nat :: i < |lines| ==>
                lines[i] == Line(if i < |h.bounds| then Some(h.bounds[i]) else None, Cumulative(h.counts, i))
  {
    lines := [];
    var cum: nat := 0;
    var i: nat := 0;
    while i < |h.counts|
      invariant i <= |h.counts| && |lines| == i
      invariant cum == if i == 0 then 0 else Cumulative(h.counts, i - 1)
      invariant forall j: nat :: j < i ==>
                  lines[j] == Line(if j < |h.bounds| then Some(h.bounds[j]) else None, Cumulative(h.counts, j))
    {
      cum := cum + h.counts[i];
      lines := lines + [Line(if i < |h.bounds| then Some(h.bounds[i]) else None, cum)];
      i := i + 1;
    }
    if h.counts == [] {
      lines := lines + [Line(None, 0)];
    }
  }

  /** What a scraper may rely on: each line counts the observations at or below
      its bound, lines never decrease, and the last is +Inf with the total. */
  lemma ExportIsFaithful(h: Snapshot, seen: seq<real>, lines: seq<Line>)
    requires Counts(h, seen) && |lines| == |h.counts|
    requires forall i: nat :: i < |lines| ==>
               lines[i] == Line(if i < |h.bounds| then Some(h.bounds[i]) else None, Cumulative(h.counts, i))
    ensures forall i :: 0 <= i < |lines| && lines[i].le.Some? ==> lines[i].cum == CountAtMost(seen, lines[i].le.value)
    ensures lines[|lines| - 1] == Line(None, |seen|)
    ensures forall i :: 0 < i < |lines| ==> lines[i - 1].cum <= lines[i].cum
  {
    forall i: nat | i < |lines|
      ensures lines[i].le.Some? ==> lines[i].cum == CountAtMost(seen, lines[i].le.value)
      ensures i == |h.bounds| ==> lines[i].cum == |seen|
    {
      CumulativeCountsObservations(h, seen, i);
    }
    forall i | 0 < i < |lines|
      ensures lines[i - 1].cum <= lines[i].cum
    {
      assert lines[i].cum == Cumulative(h.counts, i) && lines[i - 1].cum == Cumulative(h.counts, i - 1);
    }
  }

  // ---------------------------------------------------------------- the class

  lemma CountInAppend(seen: seq<real>, bounds: seq<real>, v: real, k: nat)
    ensures CountIn(seen + [v], bounds, k) == CountIn(seen, bounds, k) + if BucketOf(bounds, v) == k then 1 else 0
  {
    assert (seen + [v])[..|seen|] == seen;
  }

  method BucketIndex(bounds: seq<real>, value: real) returns (k: nat)
    ensures k == BucketOf(bounds, value)
  {
    k := 0;
    while k < |bounds|
      invariant k <= |bounds| && BucketOf(bounds, value) == BucketFrom(bounds, value, k)
    {
      if value <= bounds[k] {
        return;
      }
      k := k + 1;
    }
  }

  class Histogram {
    const buckets: array<nat>
    var count: nat
    var sumUs: nat
    /** Every value counted so far, in order. */
    ghost var seen: seq<real>

    ghost predicate Valid()
      reads this, buckets
    {
      && buckets.Length == |BOUNDS| + 1 && count == |seen|
      && (forall i :: 0 <= i < |seen| ==> seen[i] >= 0.0) && sumUs == Micros(seen)
      && (forall k: nat :: k < buckets.Length ==> buckets[k] == CountIn(seen, BOUNDS, k))
    }

    constructor ()
      ensures Valid() && seen == [] && fresh(buckets)
    {
      buckets := new nat[|BOUNDS| + 1](_ => 0);
      count := 0;
      sumUs := 0;
      seen := [];
    }

    method Observe(x: Sample)
      requires Valid()
      modifies this, buckets
      ensures Valid() && seen == old(seen) + [Cleaned(x)]
    {
      hide CountIn, BucketOf, Increasing;
      var value := Cleaned(x);
      var us := (value * 1000000.0).Floor;
      ObserveBooks(seen, value);
      sumUs := sumUs + us;
      count := count + 1;
      var i := BucketIndex(BOUNDS, value);
      BucketInRange(BOUNDS, value);
      buckets[i] := buckets[i] + 1;
      forall k: nat | k < buckets.Length
        ensures buckets[k] == CountIn(seen + [value], BOUNDS, k)
      {
        CountInAppend(seen, BOUNDS, value, k);
      }
      seen := seen + [value];
    }

    method TakeSnapshot() returns (h: Snapshot)
      requires Valid()
      ensures h == Snapshot(BOUNDS, buckets[..], count, sumUs) && Counts(h, seen)
    {
      BoundsIncrease();
      h := Snapshot(BOUNDS, buckets[..], count, sumUs);
    }
  }

  lemma ObserveBooks(seen: seq<real>, v: real)
    requires v >= 0.0 && forall i :: 0 <= i < |seen| ==> seen[i] >= 0.0
    ensures (v * 1000000.0).Floor >= 0
    ensures forall i :: 0 <= i < |seen + [v]| ==> (seen + [v])[i] >= 0.0
    ensures Micros(seen + [v]) == Micros(seen) + (v * 1000000.0).Floor
  {
    assert (seen + [v])[..|seen|] == seen;
  }

  lemma BucketInRange(bounds: seq<real>, v: real)
    ensures BucketOf(bounds, v) <= |bounds|
  {
    BucketFromIs(bounds, v, 0);
  }
}
