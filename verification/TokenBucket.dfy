/** The token bucket: a specification on values, the class that updates its
    two fields in place, and the bounds every caller relies on.

    Doubles are modelled as reals and steady_clock::now() as a parameter. */
module TokenBuckets {
  import opened Prelude

  datatype Bucket = Bucket(rate: nat, capacity: nat, tokens: real, last: real) {
    ghost predicate Valid() {
      0.0 <= tokens <= capacity as real
    }
  }

  /** The wait reported for a charge that can never be met. */
  const NEVER: real := 1000000000000.0

  function Full(rate: nat, capacityBytes: nat, now: real): (b: Bucket)
    ensures b.Valid() && b.capacity > 0
  {
    var capacity := if capacityBytes > 0 then capacityBytes else if rate > 0 then rate else 1;
    Bucket(rate, capacity, capacity as real, now)
  }

  /** What the rate supplies from the last refill up to `now`. */
  function Supply(b: Bucket, now: real): real {
    (now - b.last) * b.rate as real
  }

  function Refill(b: Bucket, now: real): Bucket {
    if b.rate == 0 || now - b.last <= 0.0 then b
    else b.(tokens := MinReal(b.capacity as real, b.tokens + Supply(b, now)), last := now)
  }

  function Take(b: Bucket, n: nat, now: real): (Bucket, bool) {
    if b.rate == 0 || n == 0 then (b, true)
    else if n > b.capacity then (b, false)
    else
      var full := Refill(b, now);
      if full.tokens < n as real then (full, false)
      else (full.(tokens := full.tokens - n as real), true)
  }

  function WaitFor(b: Bucket, n: nat, now: real): (Bucket, real) {
    if b.rate == 0 || n == 0 then (b, 0.0)
    else if n > b.capacity then (b, NEVER)
    else
      var full := Refill(b, now);
      (full, if full.tokens >= n as real then 0.0 else (n as real - full.tokens) / b.rate as real)
  }

  function PutBack(b: Bucket, n: nat, now: real): Bucket {
    if b.rate == 0 || n == 0 then b
    else
      var full := Refill(b, now);
      full.(tokens := MinReal(b.capacity as real, full.tokens + n as real))
  }

  // ---------------------------------------------------------------- single calls

  lemma ScaleMonotone(x: real, y: real, k: real)
    requires x <= y && 0.0 <= k
    ensures x * k <= y * k
  {
  }

  lemma ProductNonnegative(x: real, y: real)
    requires 0.0 <= x && 0.0 <= y
    ensures 0.0 <= x * y
  {
  }

  lemma SupplyNonnegative(b: Bucket, now: real)
    requires b.last <= now
    ensures 0.0 <= Supply(b, now)
  {
    ProductNonnegative(now - b.last, b.rate as real);
  }

  /** The supply of two stretches of time is the supply of the whole. */
  lemma SupplyAdds(b: Bucket, mid: real, now: real, later: Bucket)
    requires later.last == mid && later.rate == b.rate
    ensures Supply(b, mid) + Supply(later, now) == Supply(b, now)
  {
    var r := b.rate as real;
    assert (mid - b.last) * r + (now - mid) * r == (now - b.last) * r;
  }

  lemma RefillValid(b: Bucket, now: real)
    requires b.Valid()
    ensures Refill(b, now).Valid()
    ensures b.tokens <= Refill(b, now).tokens
    ensures b.last <= Refill(b, now).last
  {
    hide Supply;
    if b.last < now {
      SupplyNonnegative(b, now);
    }
  }

  lemma RefillKeeps(b: Bucket, now: real)
    ensures Refill(b, now).capacity == b.capacity && Refill(b, now).rate == b.rate
  {
  }

  /** What a refill up to `now` may add is bounded by the elapsed time. */
  lemma RefillGain(b: Bucket, now: real)
    requires b.Valid() && b.last <= now
    ensures Refill(b, now).tokens <= b.tokens + b.rate as real * (now - b.last)
  {
    hide Supply;
    SupplyNonnegative(b, now);
    SupplyIs(b, now);
  }

  lemma SupplyIs(b: Bucket, now: real)
    ensures Supply(b, now) == b.rate as real * (now - b.last)
  {
  }

  /** Refilling early changes nothing: two refills equal the later one. */
  lemma RefillTwice(b: Bucket, mid: real, now: real)
    requires b.Valid() && mid <= now
    ensures Refill(Refill(b, mid), now) == Refill(b, now)
  {
    hide Supply;
    if b.rate > 0 && b.last < mid < now {
      SupplyNonnegative(b, mid);
      SupplyNonnegative(Refill(b, mid), now);
      SupplyAdds(b, mid, now, Refill(b, mid));
    }
  }

  function RefillAll(b: Bucket, instants: seq<real>): Bucket
    decreases |instants|
  {
    if instants == [] then b else RefillAll(Refill(b, instants[0]), instants[1..])
  }

  ghost predicate Nondecreasing(instants: seq<real>) {
    forall i, j :: 0 <= i < j < |instants| ==> instants[i] <= instants[j]
  }

  /** Polling is harmless: any number of refills equals one refill at the last instant. */
  lemma {:induction false} PollingIsHarmless(b: Bucket, instants: seq<real>)
    requires b.Valid() && |instants| > 0 && Nondecreasing(instants)
    ensures RefillAll(b, instants) == Refill(b, instants[|instants| - 1])
    decreases |instants|
  {
    if |instants| > 1 {
      RefillValid(b, instants[0]);
      var rest := instants[1..];
      assert rest[|rest| - 1] == instants[|instants| - 1];
      PollingIsHarmless(Refill(b, instants[0]), rest);
      RefillTwice(b, instants[0], instants[|instants| - 1]);
    } else {
      assert instants[1..] == [];
    }
  }

  lemma DivideBound(need: real, d: real, r: real)
    requires r > 0.0
    ensures d >= need / r <==> d * r >= need
  {
    assert (need / r) * r == need;
    if d >= need / r {
      ScaleMonotone(need / r, d, r);
    } else {
      assert (need / r - d) * r > 0.0;
    }
  }

  /** The arithmetic of a wait, on a bucket already refilled to level `full`. */
  lemma WaitArithmetic(capacity: real, full: real, n: real, d: real, r: real)
    requires r > 0.0 && 0.0 <= full <= capacity && 0.0 < n <= capacity && 0.0 <= d
    ensures full < n ==> (MinReal(capacity, full + d * r) >= n <==> d >= (n - full) / r)
    ensures full < n ==> 0.0 <= (n - full) / r <= capacity / r
    ensures full >= n ==> MinReal(capacity, full + d * r) >= n
  {
    ProductNonnegative(d, r);
    DivideBound(n - full, d, r);
    if full < n {
      assert (capacity / r) * r == capacity;
      DivideBound(n - full, capacity / r, r);
      assert ((n - full) / r) * r == n - full;
      DivideBound(0.0, (n - full) / r, r);
    }
  }

  lemma QuotientNonnegative(x: real, r: real)
    requires 0.0 <= x && 0.0 < r
    ensures 0.0 <= x / r
  {
    assert (x / r) * r == x;
  }

  lemma RefillNow(b: Bucket, now: real)
    requires b.Valid() && b.rate > 0 && b.last <= now
    ensures var full := Refill(b, now);
            full.Valid() && full.last == now && full.rate == b.rate && full.capacity == b.capacity
  {
    hide Supply, MinReal;
    RefillValid(b, now);
  }

  /** The wait is exact: with no other caller, a retry `d` seconds later
      succeeds if and only if `d` is at least the reported wait, and the wait
      is at most the time to fill an empty bucket. */
  lemma WaitIsExact(b: Bucket, n: nat, now: real, d: real)
    requires b.Valid() && b.rate > 0 && n <= b.capacity && b.last <= now && 0.0 <= d
    ensures var (asked, wait) := WaitFor(b, n, now);
            && (Take(asked, n, now + d).1 <==> d >= wait)
            && 0.0 <= wait <= b.capacity as real / b.rate as real
  {
    hide Refill, MinReal;
    QuotientNonnegative(b.capacity as real, b.rate as real);
    if n > 0 {
      RefillNow(b, now);
      var full := Refill(b, now);
      WaitArithmetic(b.capacity as real, full.tokens, n as real, d, b.rate as real);
      RefillAfter(full, now, d);
    }
  }

  lemma RefillAfter(b: Bucket, now: real, d: real)
    requires b.Valid() && b.rate > 0 && b.last == now && 0.0 <= d
    ensures Refill(b, now + d).tokens == MinReal(b.capacity as real, b.tokens + d * b.rate as real)
  {
    SupplyLater(b, d);
    hide Supply;
    if d == 0.0 {
      assert d * b.rate as real == 0.0;
    }
  }

  lemma SupplyLater(b: Bucket, d: real)
    ensures Supply(b, b.last + d) == d * b.rate as real
  {
    assert b.last + d - b.last == d;
  }

  predicate Granted(b: Bucket, n: nat, at: real) {
    Take(b, n, at).1
  }

  /** A charge can be met at some time exactly if it is within the capacity;
      for any other the wait says so. */
  lemma EverGranted(b: Bucket, n: nat, now: real)
    requires b.Valid() && b.rate > 0 && b.last <= now
    ensures (exists at: real :: at >= now && Granted(WaitFor(b, n, now).0, n, at)) <==> n <= b.capacity
    ensures n > b.capacity ==> WaitFor(b, n, now).1 == NEVER
  {
    hide Refill;
    RefillKeeps(b, now);
    if n <= b.capacity {
      var wait := WaitFor(b, n, now).1;
      WaitIsExact(b, n, now, 0.0);
      WaitIsExact(b, n, now, wait);
      assert now + wait >= now && Granted(WaitFor(b, n, now).0, n, now + wait);
    }
  }

  /** Without a rate every charge is granted at once and the bucket stays as it is. */
  lemma UncappedGrantsAll(b: Bucket, n: nat, now: real)
    requires b.rate == 0
    ensures Take(b, n, now) == (b, true) && WaitFor(b, n, now) == (b, 0.0) && PutBack(b, n, now) == b
  {
  }

  /** Two refunds at one instant are one refund of the sum. */
  lemma PutBackTwice(b: Bucket, x: nat, y: nat, now: real)
    requires b.Valid()
    ensures PutBack(PutBack(b, x, now), y, now) == PutBack(b, x + y, now)
  {
    if b.rate > 0 && x > 0 && y > 0 {
      RefillValid(b, now);
      var half := PutBack(b, x, now);
      assert Refill(half, now) == half;
    }
  }

  // ---------------------------------------------------------------- a call moves its tokens and no more

  lemma RefillFits(b: Bucket, now: real)
    requires b.Valid()
    ensures Refill(b, now).tokens <= b.capacity as real && Refill(Refill(b, now), now) == Refill(b, now)
  {
    hide Supply;
  }

  /** Tokens are granted exactly when the level covers them. */
  lemma GrantedIff(b: Bucket, n: nat, now: real)
    requires b.Valid() && b.rate > 0 && n > 0
    ensures Take(b, n, now).1 <==> n as real <= Refill(b, now).tokens
  {
    hide Refill;
    RefillFits(b, now);
  }

  /** Handing back what was just taken undoes the call. */
  lemma TakeThenPutBack(b: Bucket, n: nat, now: real)
    requires b.Valid() && b.rate > 0 && n > 0 && Take(b, n, now).1
    ensures PutBack(Take(b, n, now).0, n, now) == Refill(b, now)
  {
    RefillFits(b, now);
    hide Supply;
  }

  /** Two takes at one instant succeed exactly when the level covers the sum,
      and are then one take of the sum. */
  lemma TakeTwice(b: Bucket, x: nat, y: nat, now: real)
    requires b.Valid() && b.rate > 0 && x > 0 && y > 0
    ensures Take(b, x, now).1 && Take(Take(b, x, now).0, y, now).1 <==> (x + y) as real <= Refill(b, now).tokens
    ensures Take(b, x + y, now).1 ==> Take(Take(b, x, now).0, y, now) == Take(b, x + y, now)
  {
    RefillFits(b, now);
    hide Supply;
  }

  /** A refund that fits raises the level by exactly its amount, any other fills the bucket. */
  lemma RefundRaises(b: Bucket, n: nat, now: real)
    requires b.Valid() && b.rate > 0
    ensures Refill(PutBack(b, n, now), now).tokens == MinReal(b.capacity as real, Refill(b, now).tokens + n as real)
  {
    RefillFits(b, now);
    hide Supply;
  }

  /** A new bucket is full: it grants any charge up to its capacity at once. */
  lemma StartsFull(rate: nat, capacityBytes: nat, n: nat, now: real)
    requires rate > 0 && n > 0
    ensures Take(Full(rate, capacityBytes, now), n, now).1
            <==> n <= if capacityBytes > 0 then capacityBytes else rate
  {
  }

  // ---------------------------------------------------------------- call sequences

  datatype Call = Acquire(n: nat, at: real) | GiveBack(n: nat, at: real) | Ask(n: nat, at: real)

  function Perform(b: Bucket, c: Call): Bucket {
    match c
    case Acquire(n, at) => Take(b, n, at).0
    case GiveBack(n, at) => PutBack(b, n, at)
    case Ask(n, at) => WaitFor(b, n, at).0
  }

  function PerformAll(b: Bucket, cs: seq<Call>): Bucket
    decreases |cs|
  {
    if cs == [] then b else PerformAll(Perform(b, cs[0]), cs[1..])
  }

  /** Tokens taken minus tokens handed back by one call. */
  function NetOf(b: Bucket, c: Call): int {
    match c
    case Acquire(n, at) => if Take(b, n, at).1 then n else 0
    case GiveBack(n, _) => -(n as int)
    case Ask(_, _) => 0
  }

  function Net(b: Bucket, cs: seq<Call>): int
    decreases |cs|
  {
    if cs == [] then 0 else NetOf(b, cs[0]) + Net(Perform(b, cs[0]), cs[1..])
  }

  /** The calls happen in order inside the window. */
  ghost predicate Within(cs: seq<Call>, from: real, to: real) {
    && from <= to
    && (forall i :: 0 <= i < |cs| ==> from <= cs[i].at <= to)
    && (forall i, j :: 0 <= i < j < |cs| ==> cs[i].at <= cs[j].at)
  }

  lemma PerformValid(b: Bucket, c: Call)
    requires b.Valid() && b.last <= c.at
    ensures Perform(b, c).Valid()
    ensures Perform(b, c).rate == b.rate && Perform(b, c).capacity == b.capacity
    ensures b.last <= Perform(b, c).last <= c.at
  {
    RefillValid(b, c.at);
  }

  /** One call moves out no more than the level drops, both levels read at the
      instant of the call. */
  lemma PerformSpends(b: Bucket, c: Call)
    requires b.Valid() && b.rate > 0 && b.last <= c.at
    ensures NetOf(b, c) as real + Refill(Perform(b, c), c.at).tokens <= Refill(b, c.at).tokens
  {
    RefillValid(b, c.at);
    RefillTwice(b, c.at, c.at);
  }

  /** The level gains at most what the rate supplies between two instants. */
  lemma LevelGain(b: Bucket, from: real, to: real)
    requires b.Valid() && b.last <= from <= to
    ensures Refill(b, to).tokens <= Refill(b, from).tokens + b.rate as real * (to - from)
  {
    RefillValid(b, from);
    RefillTwice(b, from, to);
    if b.rate > 0 {
      var mid := Refill(b, from);
      assert mid.last == from;
      RefillGain(mid, to);
    } else {
      assert 0.0 * (to - from) == 0.0;
    }
  }

  lemma SplitTime(r: real, a: real, m: real, z: real)
    ensures r * (m - a) + r * (z - m) == r * (z - a)
  {
  }

  /** What the bucket may still release up to `to`: its level now plus the supply. */
  ghost predicate Affords(b: Bucket, spent: real, left: real, from: real, to: real) {
    spent + left <= Refill(b, from).tokens + b.rate as real * (to - from)
  }

  lemma AffordsNothing(b: Bucket, from: real, to: real)
    requires b.Valid() && b.rate > 0 && b.last <= from <= to
    ensures Affords(b, 0.0, Refill(b, to).tokens, from, to)
  {
    LevelGain(b, from, to);
  }

  lemma AffordsStep(b: Bucket, c: Call, spent: real, left: real, from: real, to: real)
    requires b.Valid() && b.rate > 0 && b.last <= from <= c.at <= to
    requires Affords(Perform(b, c), spent, left, c.at, to)
    ensures Affords(b, NetOf(b, c) as real + spent, left, from, to)
  {
    hide Refill, Perform, NetOf;
    var level := Refill(Perform(b, c), c.at).tokens;
    var r := b.rate as real;
    PerformValid(b, c);
    PerformSpends(b, c);
    LevelGain(b, from, c.at);
    SplitTime(r, from, c.at, to);
    AffordsChain(spent + left, level, Refill(b, c.at).tokens, Refill(b, from).tokens,
                 r * (to - c.at), r * (c.at - from), NetOf(b, c) as real, r * (to - from));
  }

  lemma AffordsChain(use: real, level: real, at: real, start: real, late: real, early: real, net: real, all: real)
    requires use <= level + late && net + level <= at && at <= start + early && early + late == all
    ensures net + use <= start + all
  {
  }

  lemma {:induction false} WindowFrom(b: Bucket, cs: seq<Call>, from: real, to: real)
    requires b.Valid() && b.rate > 0 && b.last <= from && Within(cs, from, to)
    ensures PerformAll(b, cs).Valid() && PerformAll(b, cs).last <= to
    ensures Affords(b, Net(b, cs) as real, Refill(PerformAll(b, cs), to).tokens, from, to)
    decreases |cs|
  {
    if cs == [] {
      AffordsNothing(b, from, to);
    } else {
      var c, rest := cs[0], cs[1..];
      PerformValid(b, c);
      WindowFrom(Perform(b, c), rest, c.at, to);
      AffordsStep(b, c, Net(Perform(b, c), rest) as real, Refill(PerformAll(b, cs), to).tokens, from, to);
      assert Net(b, cs) == NetOf(b, c) + Net(Perform(b, c), rest);
    }
  }

  /** Over any window of any run, the tokens taken minus the tokens refunded
      are at most one bucketful plus what the rate supplies. */
  lemma WindowBound(b: Bucket, before: seq<Call>, cs: seq<Call>, start: real, from: real, to: real)
    requires b.Valid() && b.rate > 0 && b.last <= start
    requires Within(before, start, from) && Within(cs, from, to)
    ensures PerformAll(b, before).Valid() && PerformAll(b, before + cs).Valid()
    ensures Net(PerformAll(b, before), cs) as real <= b.capacity as real + b.rate as real * (to - from)
  {
    hide Refill, Perform, Net, PerformAll, Affords;
    var mid := PerformAll(b, before);
    WindowFrom(b, before, start, from);
    PerformKeeps(b, before);
    PerformSplit(b, before, cs);
    WindowFrom(mid, cs, from, to);
    AffordsAtMost(mid, b.capacity, b.rate, Net(mid, cs) as real, PerformAll(mid, cs), from, to);
  }

  /** `b` holds at most `capacity` at the start of the window and `after` at least nothing at its end. */
  lemma AffordsAtMost(b: Bucket, capacity: nat, rate: nat, spent: real, after: Bucket, from: real, to: real)
    requires b.Valid() && after.Valid() && Affords(b, spent, Refill(after, to).tokens, from, to)
    requires b.capacity == capacity && b.rate == rate
    ensures spent <= capacity as real + rate as real * (to - from)
  {
    hide Refill;
    RefillKeeps(b, from);
    var supply := rate as real * (to - from);
    assert spent + Refill(after, to).tokens <= Refill(b, from).tokens + supply;
    RefillValid(b, from);
    RefillValid(after, to);
  }

  // ---------------------------------------------------------------- the other half of the window

  /** What the rate supplies up to `now` still fits. */
  ghost predicate Room(b: Bucket, now: real) {
    b.tokens + Supply(b, now) <= b.capacity as real
  }

  /** No refill and no refund of the window is cut off at the capacity. */
  ghost predicate NoSpill(b: Bucket, cs: seq<Call>, to: real)
    decreases |cs|
  {
    if cs == [] then Room(b, to)
    else
      && Room(b, cs[0].at)
      && (cs[0].GiveBack? ==> Refill(b, cs[0].at).tokens + cs[0].n as real <= b.capacity as real)
      && NoSpill(Perform(b, cs[0]), cs[1..], to)
  }

  lemma RealProduct(r: real, t: real)
    requires 0.0 <= r && 0.0 <= t
    ensures 0.0 <= r * t
  {
  }

  lemma LevelsDiffer(b: Bucket, from: real, to: real, early: real, late: real)
    requires b.Valid() && b.rate > 0 && b.last <= from <= to && 0.0 <= early && 0.0 <= late
    requires Supply(b, from) == early && Supply(b, to) == early + late && b.tokens + early + late <= b.capacity as real
    ensures Refill(b, to).tokens == Refill(b, from).tokens + late
  {
    hide Refill, Supply;
    RefillExact(b, to, early + late);
    RefillExact(b, from, early);
  }

  lemma LevelExact(b: Bucket, from: real, to: real)
    requires b.Valid() && b.rate > 0 && b.last <= from <= to && Room(b, to)
    ensures Refill(b, to).tokens == Refill(b, from).tokens + b.rate as real * (to - from)
  {
    hide Refill, Supply;
    var r := b.rate as real;
    SupplyIs(b, to);
    SupplyIs(b, from);
    SplitTime(r, b.last, from, to);
    RealProduct(r, from - b.last);
    RealProduct(r, to - from);
    LevelsDiffer(b, from, to, r * (from - b.last), r * (to - from));
  }

  /** A refill that fits adds the whole supply. */
  lemma RefillExact(b: Bucket, now: real, supply: real)
    requires b.Valid() && b.rate > 0 && b.last <= now && Supply(b, now) == supply && 0.0 <= supply
    requires b.tokens + supply <= b.capacity as real
    ensures Refill(b, now).tokens == b.tokens + supply
  {
    NoSupply(b);
    hide Supply;
  }

  lemma NoSupply(b: Bucket)
    ensures Supply(b, b.last) == 0.0
  {
  }

  lemma PerformExact(b: Bucket, c: Call)
    requires b.Valid() && b.rate > 0 && b.last <= c.at
    requires c.GiveBack? ==> Refill(b, c.at).tokens + c.n as real <= b.capacity as real
    ensures NetOf(b, c) as real + Refill(Perform(b, c), c.at).tokens == Refill(b, c.at).tokens
  {
    RefillFits(b, c.at);
    hide Supply;
  }

  /** While nothing is cut off, the bucket neither makes nor loses a token. */
  lemma {:induction false} WindowExact(b: Bucket, cs: seq<Call>, from: real, to: real)
    requires b.Valid() && b.rate > 0 && b.last <= from && Within(cs, from, to) && NoSpill(b, cs, to)
    ensures Net(b, cs) as real + Refill(PerformAll(b, cs), to).tokens
         == Refill(b, from).tokens + b.rate as real * (to - from)
    decreases |cs|
  {
    hide Refill, Perform, NetOf, Room;
    if cs == [] {
      LevelExact(b, from, to);
    } else {
      var c, rest := cs[0], cs[1..];
      PerformValid(b, c);
      PerformExact(b, c);
      LevelExact(b, from, c.at);
      SplitTime(b.rate as real, from, c.at, to);
      WindowExact(Perform(b, c), rest, c.at, to);
      assert Net(b, cs) == NetOf(b, c) + Net(Perform(b, c), rest);
      assert Perform(b, c).rate as real * (to - c.at) == b.rate as real * (to - c.at);
    }
  }

  lemma {:induction false} PerformKeeps(b: Bucket, cs: seq<Call>)
    ensures PerformAll(b, cs).rate == b.rate && PerformAll(b, cs).capacity == b.capacity
    decreases |cs|
  {
    if cs != [] {
      PerformKeeps(Perform(b, cs[0]), cs[1..]);
    }
  }

  lemma {:induction false} PerformSplit(b: Bucket, cs: seq<Call>, ds: seq<Call>)
    ensures PerformAll(b, cs + ds) == PerformAll(PerformAll(b, cs), ds)
    decreases |cs|
  {
    if cs == [] {
      assert cs + ds == ds;
    } else {
      assert (cs + ds)[1..] == cs[1..] + ds;
      PerformSplit(Perform(b, cs[0]), cs[1..], ds);
    }
  }

  // ---------------------------------------------------------------- the class

  class TokenBucket {
    const rate: nat
    const capacity: nat
    var tokens: real
    var last: real

    ghost function State(): Bucket
      reads this
    {
      Bucket(rate, capacity, tokens, last)
    }

    constructor (rateBytesPerSecond: nat, capacityBytes: nat, now: real)
      ensures State() == Full(rateBytesPerSecond, capacityBytes, now)
    {
      rate := rateBytesPerSecond;
      capacity := if capacityBytes > 0 then capacityBytes else if rateBytesPerSecond > 0 then rateBytesPerSecond else 1;
      tokens := (if capacityBytes > 0 then capacityBytes
                 else if rateBytesPerSecond > 0 then rateBytesPerSecond else 1) as real;
      last := now;
    }

    method RefillUnlocked(now: real)
      modifies this
      ensures State() == Refill(old(State()), now)
    {
      if rate == 0 {
        return;
      }
      var dt := now - last;
      if dt <= 0.0 {
        return;
      }
      tokens := MinReal(capacity as real, tokens + dt * rate as real);
      last := now;
    }

    method TryAcquire(n: nat, now: real) returns (taken: bool)
      modifies this
      ensures (State(), taken) == Take(old(State()), n, now)
      ensures old(State()).Valid() && rate > 0 && n > 0 ==>
                (taken <==> n as real <= Refill(old(State()), now).tokens)
      ensures old(State()).Valid() && rate > 0 && n > 0 && taken ==>
                PutBack(State(), n, now) == Refill(old(State()), now)
    {
      ghost var b := State();
      if b.Valid() && rate > 0 && n > 0 {
        GrantedIff(b, n, now);
        if Take(b, n, now).1 {
          TakeThenPutBack(b, n, now);
        }
      }
      if rate == 0 || n == 0 {
        return true;
      }
      if n > capacity {
        return false;
      }
      RefillUnlocked(now);
      if tokens < n as real {
        return false;
      }
      tokens := tokens - n as real;
      return true;
    }

    method SecondsUntil(n: nat, now: real) returns (seconds: real)
      modifies this
      ensures (State(), seconds) == WaitFor(old(State()), n, now)
    {
      if rate == 0 || n == 0 {
        return 0.0;
      }
      if n > capacity {
        return NEVER;
      }
      RefillUnlocked(now);
      if tokens >= n as real {
        return 0.0;
      }
      return (n as real - tokens) / rate as real;
    }

    method Refund(n: nat, now: real)
      modifies this
      ensures State() == PutBack(old(State()), n, now)
    {
      if rate == 0 || n == 0 {
        return;
      }
      RefillUnlocked(now);
      tokens := MinReal(capacity as real, tokens + n as real);
    }
  }
}
