/** Percentiles read off bucket counts: the loop, and what its answer says
    about the observations themselves. */
module Percentiles {
  import opened Histograms
  import TokenBuckets

  function Clamp(p: real): real {
    if p < 0.0 then 0.0 else if p > 1.0 then 1.0 else p
  }

  /** How many observations the answer must reach. */
  function Target(h: Snapshot, p: real): real {
    Clamp(p) * h.count as real
  }

  function Lower(h: Snapshot, i: nat): real
    requires i <= |h.bounds|
  {
    if i == 0 then 0.0 else h.bounds[i - 1]
  }

  /** The unbounded bucket is taken to end at twice the last bound. */
  function Upper(h: Snapshot, i: nat): real {
    if i < |h.bounds| then h.bounds[i] else if h.bounds == [] then 0.0 else h.bounds[|h.bounds| - 1] * 2.0
  }

  /** The point of (lower, upper] where the target falls among n observations. */
  function Interpolated(lower: real, upper: real, target: real, prev: real, n: real): real
    requires n != 0.0
  {
    lower + ((target - prev) / n) * (upper - lower)
  }

  function InBucket(h: Snapshot, i: nat, prev: nat, target: real): real
    requires i < |h.counts| <= |h.bounds| + 1
  {
    if h.counts[i] == 0 then Upper(h, i)
    else Interpolated(Lower(h, i), Upper(h, i), target, prev as real, h.counts[i] as real)
  }

  function Before(h: Snapshot, i: nat): nat
    requires i <= |h.counts|
  {
    if i == 0 then 0 else Cumulative(h.counts, i - 1)
  }

  /** The first bucket from the i-th on whose cumulative count reaches the target. */
  function Reach(h: Snapshot, target: real, i: nat): (k: nat)
    requires i <= |h.counts|
    ensures i <= k <= |h.counts|
    decreases |h.counts| - i
  {
    if i == |h.counts| || Cumulative(h.counts, i) as real >= target then i else Reach(h, target, i + 1)
  }

  /** The answer for a target number of observations. */
  function ValueAt(h: Snapshot, target: real): real
    requires |h.counts| <= |h.bounds| + 1
  {
    var i := Reach(h, target, 0);
    if i < |h.counts| then InBucket(h, i, Before(h, i), target)
    else if h.bounds == [] then 0.0 else h.bounds[|h.bounds| - 1]
  }

  function PercentileOf(h: Snapshot, p: real): real
    requires |h.counts| <= |h.bounds| + 1
  {
    if h.count == 0 || h.counts == [] then 0.0 else ValueAt(h, Target(h, p))
  }

  lemma {:induction false} ReachIs(h: Snapshot, target: real, i: nat)
    requires i <= |h.counts| && (i > 0 ==> Cumulative(h.counts, i - 1) as real < target)
    ensures var k := Reach(h, target, i);
            && i <= k <= |h.counts| && (k > 0 && k > i ==> Cumulative(h.counts, k - 1) as real < target)
            && (k < |h.counts| ==> Cumulative(h.counts, k) as real >= target)
    decreases |h.counts| - i
  {
    if i < |h.counts| && (Cumulative(h.counts, i) as real) < target {
      ReachIs(h, target, i + 1);
    }
  }

  method HistogramPercentile(h: Snapshot, p: real) returns (value: real)
    requires |h.counts| <= |h.bounds| + 1
    ensures value == PercentileOf(h, p)
  {
    if h.count == 0 || h.counts == [] {
      return 0.0;
    }
    var target := Target(h, p);
    value := Locate(h, target);
  }

  /** The loop over the buckets. */
  method Locate(h: Snapshot, target: real) returns (value: real)
    requires |h.counts| <= |h.bounds| + 1
    ensures value == ValueAt(h, target)
  {
    var cum: nat, i: nat := 0, 0;
    while i < |h.counts|
      invariant i <= |h.counts| && cum == Before(h, i)
      invariant Reach(h, target, 0) == Reach(h, target, i)
    {
      var prev := cum;
      cum := cum + h.counts[i];
      if cum as real >= target {
        var lower := if i == 0 then 0.0 else h.bounds[i - 1];
        var upper := if i < |h.bounds| then h.bounds[i]
                     else if h.bounds == [] then 0.0 else h.bounds[|h.bounds| - 1] * 2.0;
        if h.counts[i] == 0 {
          return upper;
        }
        var frac := (target - prev as real) / h.counts[i] as real;
        assert Reach(h, target, i) == i && lower == Lower(h, i) && upper == Upper(h, i);
        value := lower + frac * (upper - lower);
        assert value == Interpolated(lower, upper, target, prev as real, h.counts[i] as real);
        return;
      }
      i := i + 1;
    }
    return if h.bounds == [] then 0.0 else h.bounds[|h.bounds| - 1];
  }

  // ---------------------------------------------------------------- the bucket that is found

  lemma ScaleInside(frac: real, width: real)
    requires 0.0 < frac <= 1.0 && width > 0.0
    ensures 0.0 < frac * width <= width
  {
  }

  /** Arithmetic of the interpolation inside one bucket. */
  lemma Interpolates(lower: real, upper: real, target: real, prev: real, n: real)
    requires lower < upper && n > 0.0 && prev < target <= prev + n
    ensures lower < Interpolated(lower, upper, target, prev, n) <= upper
  {
    TokenBuckets.DivideBound(target - prev, 1.0, n);
    TokenBuckets.DivideBound(target - prev, 0.0, n);
    ScaleInside((target - prev) / n, upper - lower);
  }

  lemma InterpolationGrows(lower: real, upper: real, a: real, b: real, prev: real, n: real)
    requires lower < upper && n > 0.0 && a <= b
    ensures Interpolated(lower, upper, a, prev, n) <= Interpolated(lower, upper, b, prev, n)
  {
    assert ((b - prev) / n) * n == b - prev;
    TokenBuckets.DivideBound(a - prev, (b - prev) / n, n);
    TokenBuckets.ScaleMonotone((a - prev) / n, (b - prev) / n, upper - lower);
  }

  lemma BucketWidth(h: Snapshot, i: nat)
    requires Increasing(h.bounds) && h.bounds != [] && i <= |h.bounds|
    ensures 0.0 <= Lower(h, i) < Upper(h, i)
    ensures forall j: nat :: j < i ==> Upper(h, j) <= Lower(h, i)
  {
    forall j: nat | j < i
      ensures Upper(h, j) <= Lower(h, i)
    {
      if j < i - 1 {
        assert h.bounds[j] < h.bounds[i - 1];
      }
    }
  }

  /** A snapshot with at least one observation and at least one bound. */
  ghost predicate Filled(h: Snapshot, seen: seq<real>) {
    Counts(h, seen) && h.bounds != [] && seen != []
  }

  lemma TargetInRange(h: Snapshot, p: real)
    requires h.count > 0
    ensures 0.0 <= Target(h, p) <= h.count as real
    ensures p > 0.0 ==> Target(h, p) > 0.0
    ensures p <= 0.0 ==> Target(h, p) == 0.0
  {
    hide Clamp;
    ClampIs(p, p);
    Share(Clamp(p), h.count as real);
  }

  lemma Share(c: real, n: real)
    requires 0.0 <= c <= 1.0 && n > 0.0
    ensures 0.0 <= c * n <= n && (c > 0.0 ==> c * n > 0.0) && (c == 0.0 ==> c * n == 0.0)
  {
    TokenBuckets.ScaleMonotone(c, 1.0, n);
  }

  /** The bucket that is found exists, is not empty, and holds the target. */
  lemma ReachFound(h: Snapshot, seen: seq<real>, target: real)
    requires Filled(h, seen) && 0.0 < target <= h.count as real
    ensures var k := Reach(h, target, 0);
            && k < |h.counts| && h.counts[k] > 0
            && (Before(h, k) as real) < target <= Cumulative(h.counts, k) as real
            && Cumulative(h.counts, k) == Before(h, k) + h.counts[k]
  {
    ReachIs(h, target, 0);
    CumulativeCountsObservations(h, seen, |h.bounds|);
    hide Reach, CountIn, CountAtMost;
  }

  lemma InBucketInside(h: Snapshot, k: nat, target: real)
    requires Increasing(h.bounds) && h.bounds != [] && k < |h.counts| == |h.bounds| + 1 && h.counts[k] > 0
    requires (Before(h, k) as real) < target <= Before(h, k) as real + h.counts[k] as real
    ensures Lower(h, k) < InBucket(h, k, Before(h, k), target) <= Upper(h, k)
  {
    hide Before, Cumulative, Lower, Upper, Interpolated;
    BucketWidth(h, k);
    Interpolates(Lower(h, k), Upper(h, k), target, Before(h, k) as real, h.counts[k] as real);
  }

  /** For a positive p the answer lies inside the first bucket whose cumulative
      count reaches the target, and that bucket is not empty. */
  lemma AnswerInBucket(h: Snapshot, seen: seq<real>, p: real)
    requires Filled(h, seen) && p > 0.0
    ensures var target := Target(h, p);
            var k := Reach(h, target, 0);
            && k < |h.counts| && h.counts[k] > 0
            && (Before(h, k) as real) < target <= Cumulative(h.counts, k) as real
            && PercentileOf(h, p) == InBucket(h, k, Before(h, k), target)
            && Lower(h, k) < PercentileOf(h, p) <= Upper(h, k)
  {
    hide Target, Reach, InBucket, Before, Cumulative, Lower, Upper, CountIn;
    var target := Target(h, p);
    TargetInRange(h, p);
    ReachFound(h, seen, target);
    InBucketInside(h, Reach(h, target, 0), target);
  }

  /** The rank the target stands for. */
  function Rank(target: real): int {
    if target == target.Floor as real then target.Floor else target.Floor + 1
  }

  lemma RankReaches(n: nat, target: real)
    ensures n as real >= target <==> n >= Rank(target)
  {
  }

  /** x is the r-th smallest observation, counting equal ones in any order. */
  ghost predicate Ranked(seen: seq<real>, x: real, r: int) {
    x in seen && CountBelow(seen, x) < r <= CountAtMost(seen, x)
  }

  lemma {:induction false} BelowGrows(seen: seq<real>, a: real, b: real)
    requires a <= b
    ensures CountBelow(seen, a) <= CountBelow(seen, b)
    decreases |seen|
  {
    if seen != [] {
      BelowGrows(seen[..|seen| - 1], a, b);
    }
  }

  /** There is an observation of every rank from the first to the last. */
  lemma {:induction false} EveryRankIsTaken(seen: seq<real>, r: int)
    requires 1 <= r <= |seen|
    ensures exists x :: Ranked(seen, x, r)
    decreases |seen|
  {
    var front, v := seen[..|seen| - 1], seen[|seen| - 1];
    if CountBelow(front, v) < r <= CountAtMost(front, v) + 1 {
      assert Ranked(seen, v, r);
    } else {
      var s := if r <= CountBelow(front, v) then r else r - 1;
      AtMostGrows(front, v, v);
      if r <= CountBelow(front, v) {
        BelowIsShort(front, v);
      }
      EveryRankIsTaken(front, s);
      var x :| Ranked(front, x, s);
      if r <= CountBelow(front, v) {
        if v <= x { BelowGrows(front, v, x); }
      } else {
        AtMostGrows(front, x, v);
      }
      assert Ranked(seen, x, r);
    }
  }

  lemma {:induction false} BelowIsShort(seen: seq<real>, a: real)
    ensures CountBelow(seen, a) <= |seen|
    decreases |seen|
  {
    if seen != [] {
      BelowIsShort(seen[..|seen| - 1], a);
    }
  }

  /** The rank a percentile stands for is held by some observation, and the
      answer lies in that observation's bucket. */
  lemma PercentileIsAnObservation(h: Snapshot, seen: seq<real>, p: real)
    requires Filled(h, seen) && p > 0.0
    ensures exists x :: Ranked(seen, x, Rank(Target(h, p)))
                        && BucketOf(h.bounds, x) <= |h.bounds|
                        && Lower(h, BucketOf(h.bounds, x)) < PercentileOf(h, p) <= Upper(h, BucketOf(h.bounds, x))
  {
    hide Target, Reach, Before, Cumulative, CountIn, PercentileOf, Lower, Upper, InBucket, Ranked, Rank;
    CumulativeCountsObservations(h, seen, |h.bounds|);
    TargetInRange(h, p);
    RankInRange(h.count, Target(h, p));
    EveryRankIsTaken(seen, Rank(Target(h, p)));
    var x :| Ranked(seen, x, Rank(Target(h, p)));
    PercentileFindsTheRank(h, seen, p, x);
  }

  lemma RankInRange(n: nat, target: real)
    requires 0.0 < target <= n as real
    ensures 1 <= Rank(target) <= n
  {
  }

  /** The answer lies in the bucket that holds the observation of rank
      ceil(p * count). */
  lemma PercentileFindsTheRank(h: Snapshot, seen: seq<real>, p: real, x: real)
    requires Filled(h, seen) && p > 0.0
    requires Ranked(seen, x, Rank(Target(h, p)))
    ensures var k := BucketOf(h.bounds, x);
            && k <= |h.bounds| && Lower(h, k) < PercentileOf(h, p) <= Upper(h, k)
            && (k < |h.bounds| ==> x <= Upper(h, k)) && (k > 0 ==> Lower(h, k) < x)
  {
    var target := Target(h, p);
    var r := Rank(target);
    AnswerInBucket(h, seen, p);
    var k, b := Reach(h, target, 0), BucketOf(h.bounds, x);
    BucketFromIs(h.bounds, x, 0);
    RankReaches(Cumulative(h.counts, k), target);
    RankReaches(Before(h, k), target);
    BucketHoldsRank(h, seen, x, r, b);
    SameBucket(h, r, k, b);
  }

  lemma BucketHoldsRank(h: Snapshot, seen: seq<real>, x: real, r: int, b: nat)
    requires Counts(h, seen) && b <= |h.bounds| && CountBelow(seen, x) < r <= CountAtMost(seen, x)
    requires (b < |h.bounds| ==> x <= h.bounds[b]) && (b > 0 ==> h.bounds[b - 1] < x)
    ensures Before(h, b) < r <= Cumulative(h.counts, b)
  {
    CumulativeCountsObservations(h, seen, b);
    if b < |h.bounds| {
      AtMostGrows(seen, x, h.bounds[b]);
    } else {
      AtMostGrows(seen, x, x);
    }
    if b > 0 {
      CumulativeCountsObservations(h, seen, b - 1);
      AtMostGrows(seen, h.bounds[b - 1], x);
    } else {
      BelowIsNatural(seen, x);
    }
  }

  lemma BelowIsNatural(seen: seq<real>, x: real)
    ensures CountBelow(seen, x) >= 0
  {
  }

  lemma {:induction false} CumulativeGrows(counts: seq<nat>, i: nat, j: nat)
    requires i <= j < |counts|
    ensures Cumulative(counts, i) <= Cumulative(counts, j)
    decreases j - i
  {
    if i < j {
      CumulativeGrows(counts, i, j - 1);
    }
  }

  lemma CumulativeBefore(h: Snapshot, a: nat, b: nat)
    requires a < |h.counts| && b < |h.counts|
    ensures a < b ==> Cumulative(h.counts, a) <= Before(h, b)
  {
    if a < b {
      CumulativeGrows(h.counts, a, b - 1);
    }
  }

  lemma SameBucket(h: Snapshot, r: int, a: nat, b: nat)
    requires a < |h.counts| && b < |h.counts|
    requires Before(h, a) < r <= Cumulative(h.counts, a) && Before(h, b) < r <= Cumulative(h.counts, b)
    ensures a == b
  {
    hide Before, Cumulative;
    CumulativeBefore(h, a, b);
    CumulativeBefore(h, b, a);
  }

  // ---------------------------------------------------------------- inside a bucket

  /** The interpolation spreads the n observations of a bucket evenly. */
  lemma InterpolatedIs(lower: real, upper: real, target: real, prev: real, n: real)
    requires n > 0.0
    ensures n * (Interpolated(lower, upper, target, prev, n) - lower) == (target - prev) * (upper - lower)
    ensures target == prev + n ==> Interpolated(lower, upper, target, prev, n) == upper
  {
    var frac := (target - prev) / n;
    assert frac * n == target - prev;
    var width := upper - lower;
    assert n * (frac * width) == (frac * n) * width;
    if target == prev + n {
      assert frac == 1.0;
    }
  }

  /** For p between 0 and 1 the target is that share of the observations. */
  lemma TargetIs(h: Snapshot, p: real)
    ensures 0.0 <= p <= 1.0 ==> Target(h, p) == p * h.count as real
    ensures p > 1.0 ==> Target(h, p) == h.count as real
  {
  }

  /** Within its bucket the answer lies where the target falls among the
      observations of that bucket. */
  lemma AnswerInterpolates(h: Snapshot, seen: seq<real>, p: real)
    requires Filled(h, seen) && 0.0 < p <= 1.0
    ensures var k := Reach(h, p * h.count as real, 0);
            && k < |h.counts|
            && h.counts[k] as real * (PercentileOf(h, p) - Lower(h, k))
               == (p * h.count as real - Before(h, k) as real) * (Upper(h, k) - Lower(h, k))
            && (p * h.count as real == Cumulative(h.counts, k) as real ==> PercentileOf(h, p) == Upper(h, k))
  {
    hide Target, Reach, Before, Cumulative, Lower, Upper, CountIn, Interpolated, PercentileOf;
    var target := p * h.count as real;
    TargetIs(h, p);
    AnswerInBucket(h, seen, p);
    TargetInRange(h, p);
    ReachFound(h, seen, target);
    var k := Reach(h, target, 0);
    InterpolatedIs(Lower(h, k), Upper(h, k), target, Before(h, k) as real, h.counts[k] as real);
  }

  /** At p = 1 the answer is the upper end of the last bucket in use, and twice
      the last bound if some observation exceeds that. */
  lemma AtOne(h: Snapshot, seen: seq<real>, x: real)
    requires Filled(h, seen) && x in seen && CountAtMost(seen, x) == |seen|
    ensures BucketOf(h.bounds, x) <= |h.bounds| && PercentileOf(h, 1.0) == Upper(h, BucketOf(h.bounds, x))
    ensures x > h.bounds[|h.bounds| - 1] ==> PercentileOf(h, 1.0) == 2.0 * h.bounds[|h.bounds| - 1]
  {
    hide Target, Reach, Before, Lower, CountIn, Interpolated, PercentileOf, Rank, BucketOf;
    TargetIs(h, 1.0);
    AnswerInterpolates(h, seen, 1.0);
    AnswerInBucket(h, seen, 1.0);
    LastReached(h, seen, x);
  }

  lemma {:induction false} BelowMisses(seen: seq<real>, x: real)
    requires x in seen
    ensures CountBelow(seen, x) < |seen|
    decreases |seen|
  {
    var front := seen[..|seen| - 1];
    if seen[|seen| - 1] == x {
      BelowIsShort(front, x);
    } else {
      BelowMisses(front, x);
    }
  }

  lemma LastBucket(bounds: seq<real>, x: real)
    requires Increasing(bounds) && bounds != []
    ensures var b := BucketOf(bounds, x);
            && b <= |bounds| && (b < |bounds| ==> x <= bounds[b]) && (b > 0 ==> bounds[b - 1] < x)
            && (x > bounds[|bounds| - 1] ==> b == |bounds|)
  {
    BucketFromIs(bounds, x, 0);
  }

  lemma LastReached(h: Snapshot, seen: seq<real>, x: real)
    requires Filled(h, seen) && x in seen && CountAtMost(seen, x) == |seen|
    ensures var b := BucketOf(h.bounds, x);
            && b <= |h.bounds| && Reach(h, h.count as real, 0) == b && Cumulative(h.counts, b) == h.count
            && (x > h.bounds[|h.bounds| - 1] ==> b == |h.bounds|)
  {
    hide Reach, Before, Cumulative, CountIn, CountAtMost, CountBelow, BucketOf;
    var b, k := BucketOf(h.bounds, x), Reach(h, h.count as real, 0);
    LastBucket(h.bounds, x);
    BelowMisses(seen, x);
    BucketHoldsRank(h, seen, x, |seen|, b);
    ReachFound(h, seen, h.count as real);
    SameBucket(h, |seen|, k, b);
    CumulativeCountsObservations(h, seen, b);
    if b < |h.bounds| {
      AtMostGrows(seen, h.bounds[b], h.bounds[b]);
    }
  }

  // ---------------------------------------------------------------- monotone

  lemma {:induction false} ReachGrows(h: Snapshot, s: real, t: real, i: nat)
    requires i <= |h.counts| && s <= t
    ensures Reach(h, s, i) <= Reach(h, t, i)
    decreases |h.counts| - i
  {
    if i < |h.counts| && (Cumulative(h.counts, i) as real) < s {
      ReachGrows(h, s, t, i + 1);
    } else {
      ReachBehind(h, t, i);
    }
  }

  lemma {:induction false} ReachBehind(h: Snapshot, t: real, i: nat)
    requires i <= |h.counts|
    ensures Reach(h, t, i) >= i
    decreases |h.counts| - i
  {
    if i < |h.counts| && (Cumulative(h.counts, i) as real) < t {
      ReachBehind(h, t, i + 1);
    }
  }

  lemma TargetGrows(h: Snapshot, p: real, q: real)
    requires p <= q
    ensures Target(h, p) <= Target(h, q)
  {
    hide Clamp;
    ClampIs(p, q);
    TokenBuckets.ScaleMonotone(Clamp(p), Clamp(q), h.count as real);
  }

  lemma ClampIs(p: real, q: real)
    ensures 0.0 <= Clamp(p) <= 1.0 && (p > 0.0 ==> Clamp(p) > 0.0) && (p <= 0.0 ==> Clamp(p) == 0.0)
    ensures p <= q ==> Clamp(p) <= Clamp(q)
  {
  }

  /** A larger p never gives a smaller answer. */
  lemma PercentileMonotone(h: Snapshot, seen: seq<real>, p: real, q: real)
    requires Counts(h, seen) && h.bounds != [] && p <= q
    ensures PercentileOf(h, p) <= PercentileOf(h, q)
  {
    hide Target, Reach, InBucket, Before, Cumulative, CountIn, PercentileOf, Lower, Upper;
    if seen == [] {
      NothingSeen(h, p);
      NothingSeen(h, q);
    } else if p <= 0.0 {
      AtZero(h, seen, p);
      if q <= 0.0 {
        AtZero(h, seen, q);
      } else {
        AnswerInBucket(h, seen, q);
        AboveZero(h, Reach(h, Target(h, q), 0));
      }
    } else {
      PositiveMonotone(h, seen, p, q);
    }
  }

  lemma NothingSeen(h: Snapshot, p: real)
    requires |h.counts| <= |h.bounds| + 1 && h.count == 0
    ensures PercentileOf(h, p) == 0.0
  {
  }

  lemma PositiveMonotone(h: Snapshot, seen: seq<real>, p: real, q: real)
    requires Filled(h, seen) && 0.0 < p <= q
    ensures PercentileOf(h, p) <= PercentileOf(h, q)
  {
    hide Target, Reach, Before, Cumulative, CountIn, PercentileOf, Lower, Upper, InBucket;
    var s, t := Target(h, p), Target(h, q);
    TargetGrows(h, p, q);
    AnswerInBucket(h, seen, p);
    AnswerInBucket(h, seen, q);
    ReachGrows(h, s, t, 0);
    var i, k := Reach(h, s, 0), Reach(h, t, 0);
    BucketWidth(h, k);
    if i == k {
      SameBucketGrows(h, k, s, t);
    } else {
      assert Upper(h, i) <= Lower(h, k);
    }
  }

  lemma SameBucketGrows(h: Snapshot, k: nat, s: real, t: real)
    requires Increasing(h.bounds) && h.bounds != [] && k < |h.counts| == |h.bounds| + 1 && h.counts[k] > 0 && s <= t
    ensures InBucket(h, k, Before(h, k), s) <= InBucket(h, k, Before(h, k), t)
  {
    hide Before, Cumulative, Lower, Upper, Interpolated;
    BucketWidth(h, k);
    InterpolationGrows(Lower(h, k), Upper(h, k), s, t, Before(h, k) as real, h.counts[k] as real);
  }

  /** At p = 0 the answer is 0, or the first bound if the first bucket is empty. */
  lemma AtZero(h: Snapshot, seen: seq<real>, p: real)
    requires Filled(h, seen) && p <= 0.0
    ensures PercentileOf(h, p) == if h.counts[0] == 0 then h.bounds[0] else 0.0
  {
    TargetInRange(h, p);
    assert Reach(h, 0.0, 0) == 0;
    assert (0.0 - 0 as real) / 1.0 == 0.0;
    if h.counts[0] > 0 {
      ZeroOver(h.counts[0] as real, Upper(h, 0));
    }
  }

  lemma ZeroOver(n: real, width: real)
    requires n > 0.0
    ensures (0.0 / n) * width == 0.0
  {
    assert 0.0 / n == 0.0;
  }

  lemma AboveZero(h: Snapshot, k: nat)
    requires Increasing(h.bounds) && h.bounds != [] && k < |h.counts| == |h.bounds| + 1 && h.counts[k] > 0
    ensures Lower(h, k) >= if h.counts[0] == 0 then h.bounds[0] else 0.0
  {
    if k > 0 {
      BucketWidth(h, k);
      assert Upper(h, 0) <= Lower(h, k);
    }
  }
}
