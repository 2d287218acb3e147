/** Sizing policy of a run: the automatic byte cap, the charge for one
    operation, and the bucket capacity. */
module RunConfigs {
  import opened Prelude

  datatype Pattern = Sequential | Random | Vector | Mixed

  datatype RunConfig = RunConfig(rate: nat, maxInflight: nat, pattern: Pattern, chunkSize: nat, vectorChunks: nat,
                                 vectorFraction: real, maxBytes: nat, maxBytesAuto: bool, sessionTimeout: real,
                                 duration: real)

  const AMORTIZE_SECONDS: real := 8.0
  const FLOOR_CHUNKS: nat := 4
  const HARD_CAP_BYTES: nat := 32_000_000
  const RATE_HEADROOM_SECONDS: real := 2.0

  // ---------------------------------------------------------------- one operation

  function OpCharge(cfg: RunConfig, useVector: bool): nat {
    var chunk := Max(cfg.chunkSize, 1);
    if useVector then chunk * Max(1, cfg.vectorChunks) else chunk
  }

  function BucketCapacity(cfg: RunConfig): nat {
    if cfg.rate == 0 then 0 else OpCharge(cfg, cfg.pattern == Vector || cfg.pattern == Mixed)
  }

  lemma Scale(a: nat, b: nat, y: nat)
    requires a <= b
    ensures a * y <= b * y && y * a <= y * b
  {
  }

  /** Only a run without a rate has a bucket without a capacity. */
  lemma UncappedHasNoBucket(cfg: RunConfig)
    ensures BucketCapacity(cfg) == 0 <==> cfg.rate == 0
  {
    if cfg.rate > 0 {
      CapacityHoldsEveryCharge(cfg, false);
    }
  }

  /** The bucket holds any operation the pattern can produce. */
  lemma CapacityHoldsEveryCharge(cfg: RunConfig, useVector: bool)
    requires cfg.rate > 0
    requires useVector ==> cfg.pattern == Vector || cfg.pattern == Mixed
    ensures 0 < OpCharge(cfg, useVector) <= BucketCapacity(cfg)
  {
    var chunk := Max(cfg.chunkSize, 1);
    Scale(1, Max(1, cfg.vectorChunks), chunk);
  }

  // ---------------------------------------------------------------- the automatic cap

  function RoundDown(x: nat, c: nat): nat
    requires c > 0
  {
    (x / c) * c
  }

  function RoundUp(x: nat, c: nat): nat
    requires c > 0
  {
    ((x + c - 1) / c) * c
  }

  function Share(rate: nat, slots: nat): nat
    requires slots > 0
  {
    ((rate as real / slots as real) * AMORTIZE_SECONDS).Floor
  }

  function Ceiling(rate: nat): nat {
    Min((rate as real * RATE_HEADROOM_SECONDS).Floor, HARD_CAP_BYTES)
  }

  /** The share of one slot, raised to the floor and cut at the ceiling. */
  function Clamped(rate: nat, slots: nat, chunk: nat): nat
    requires slots > 0
  {
    Min(Max(Share(rate, slots), chunk * FLOOR_CHUNKS), Ceiling(rate))
  }

  /** The cap: the clamped share rounded up to whole chunks, but no more than
      the whole chunks under the ceiling, and at least one chunk. */
  function AutoCap(rate: nat, slots: nat, chunk: nat): nat
    requires slots > 0 && chunk > 0
  {
    Max(chunk, Min(RoundUp(Clamped(rate, slots, chunk), chunk), RoundDown(Ceiling(rate), chunk)))
  }

  lemma RoundDownIs(x: nat, c: nat)
    requires c > 0
    ensures RoundDown(x, c) <= x < RoundDown(x, c) + c && RoundDown(x, c) % c == 0
  {
    assert x == (x / c) * c + x % c;
    MultipleModulo(x / c, c);
  }

  lemma MultipleModulo(q: nat, c: nat)
    requires c > 0
    ensures (q * c) % c == 0
  {
    var z := q * c;
    assert z == (z / c) * c + z % c;
    assert (q - z / c) * c == z % c;
    SmallMultiple(q - z / c, c);
  }

  lemma SmallMultiple(d: int, c: int)
    requires 0 <= d * c < c
    ensures d == 0
  {
  }

  /** RoundUp is the least multiple of the chunk at or above x. */
  lemma RoundUpIs(x: nat, c: nat)
    requires c > 0
    ensures x <= RoundUp(x, c) < x + c && RoundUp(x, c) % c == 0
  {
    RoundDownIs(x + c - 1, c);
  }

  lemma MultiplesApart(x: nat, y: nat, c: nat)
    requires c > 0 && x % c == 0 && y % c == 0 && x < y
    ensures x + c <= y
  {
    assert x == (x / c) * c && y == (y / c) * c;
    if y / c <= x / c {
      Scale(y / c, x / c, c);
    } else {
      Scale(x / c + 1, y / c, c);
      assert (x / c + 1) * c == (x / c) * c + c;
    }
  }

  /** RoundDown is the greatest multiple at or below x; RoundUp the least at or above. */
  lemma RoundingIsBest(x: nat, m: nat, c: nat)
    requires c > 0 && m % c == 0
    ensures m <= x ==> m <= RoundDown(x, c)
    ensures m >= x ==> m >= RoundUp(x, c)
  {
    RoundDownIs(x, c);
    RoundUpIs(x, c);
    if m <= x && RoundDown(x, c) < m {
      MultiplesApart(RoundDown(x, c), m, c);
    }
    if m >= x && m < RoundUp(x, c) {
      MultiplesApart(m, RoundUp(x, c), c);
    }
  }

  lemma RoundingMonotone(x: nat, y: nat, c: nat)
    requires c > 0 && x <= y
    ensures RoundUp(x, c) <= RoundUp(y, c) && RoundDown(x, c) <= RoundDown(y, c)
  {
    RoundUpIs(y, c);
    RoundDownIs(x, c);
    RoundingIsBest(x, RoundUp(y, c), c);
    RoundingIsBest(y, RoundDown(x, c), c);
  }

  /** The source's own last step: round up, and fall back to rounding the
      ceiling down when that overshoots. */
  lemma AlignedIsAutoCap(rate: nat, slots: nat, chunk: nat)
    requires slots > 0 && chunk > 0
    ensures var up := RoundUp(Clamped(rate, slots, chunk), chunk);
            AutoCap(rate, slots, chunk)
            == Max(if up > Ceiling(rate) then RoundDown(Ceiling(rate), chunk) else up, chunk)
  {
    var up := RoundUp(Clamped(rate, slots, chunk), chunk);
    RoundUpIs(Clamped(rate, slots, chunk), chunk);
    RoundDownIs(Ceiling(rate), chunk);
    RoundingIsBest(Ceiling(rate), up, chunk);
  }

  /** The cap is a positive whole number of chunks, never above the ceiling
      unless one chunk already is. */
  lemma AutoCapShape(rate: nat, slots: nat, chunk: nat)
    requires slots > 0 && chunk > 0
    ensures var cap := AutoCap(rate, slots, chunk);
            cap > 0 && cap % chunk == 0 && cap <= Max(chunk, Ceiling(rate))
  {
    RoundUpIs(Clamped(rate, slots, chunk), chunk);
    RoundDownIs(Ceiling(rate), chunk);
    assert chunk % chunk == 0;
  }

  lemma ProductPositive(x: real, y: real)
    requires x > 0.0 && y > 0.0
    ensures x * y > 0.0
  {
  }

  lemma AtMostQuotient(a: real, y: real, w: real)
    requires w > 0.0 && a * w <= y
    ensures a <= y / w
  {
    var q := y / w;
    assert q * w == y;
    assert (a - q) * w == a * w - q * w;
    if a > q {
      ProductPositive(a - q, w);
      assert false;
    }
  }

  lemma QuotientMonotone(x: real, y: real, w: real)
    requires x <= y && w > 0.0
    ensures x / w <= y / w
  {
    assert (x / w) * w == x;
    AtMostQuotient(x / w, y, w);
  }

  lemma QuotientAntitone(x: real, v: real, w: real)
    requires x >= 0.0 && 0.0 < v <= w
    ensures x / w <= x / v
  {
    var a := x / w;
    assert a * w == x;
    NonnegativeQuotient(x, w);
    assert a * (w - v) >= 0.0;
    AtMostQuotient(a, x, v);
  }

  lemma NonnegativeQuotient(x: real, v: real)
    requires x >= 0.0 && v > 0.0
    ensures x / v >= 0.0
  {
    assert (x / v) * v == x;
  }

  lemma FloorMonotone(x: real, y: real)
    requires x <= y
    ensures x.Floor <= y.Floor
  {
  }

  /** A faster run never gets a smaller cap, and more slots never a larger one. */
  lemma AutoCapMonotone(rate: nat, rate': nat, slots: nat, slots': nat, chunk: nat)
    requires rate <= rate' && 0 < slots' <= slots && chunk > 0
    ensures AutoCap(rate, slots, chunk) <= AutoCap(rate', slots', chunk)
  {
    ShareMonotone(rate, rate', slots, slots');
    FloorMonotone(rate as real * RATE_HEADROOM_SECONDS, rate' as real * RATE_HEADROOM_SECONDS);
    hide Share;
    RoundingMonotone(Clamped(rate, slots, chunk), Clamped(rate', slots', chunk), chunk);
    RoundingMonotone(Ceiling(rate), Ceiling(rate'), chunk);
    hide RoundUp, RoundDown, Clamped, Ceiling;
  }

  lemma ShareMonotone(rate: nat, rate': nat, slots: nat, slots': nat)
    requires rate <= rate' && 0 < slots' <= slots
    ensures Share(rate, slots) <= Share(rate', slots')
  {
    var x, y := rate as real / slots as real, rate' as real / slots' as real;
    QuotientMonotone(rate as real, rate' as real, slots as real);
    QuotientAntitone(rate' as real, slots' as real, slots as real);
    assert x * AMORTIZE_SECONDS <= y * AMORTIZE_SECONDS;
  }

  // ---------------------------------------------------------------- what the cap is for

  /** A slot's share is what it may read in eight seconds at its part of the rate. */
  lemma ShareIs(rate: nat, slots: nat)
    requires slots > 0
    ensures 0 <= Share(rate, slots) * slots <= 8 * rate < (Share(rate, slots) + 1) * slots
  {
    var each := rate as real / slots as real;
    assert each * slots as real == rate as real;
    NonnegativeQuotient(rate as real, slots as real);
    var x := each * AMORTIZE_SECONDS;
    assert x * slots as real == 8.0 * rate as real;
    FloorTimes(x, slots, 8 * rate);
  }

  lemma Between(a: real, x: real, b: real, k: real)
    requires a <= x < b && 0.0 < k
    ensures a * k <= x * k < b * k
  {
    ScaleReal(a, x, k);
    ScaleStrict(x, b, k);
  }

  lemma TimesBetween(f: int, x: real, g: int, n: nat, y: nat)
    requires n > 0 && f as real <= x < g as real && x * n as real == y as real
    ensures f * n <= y < g * n
  {
    Between(f as real, x, g as real, n as real);
    assert (f * n) as real == f as real * n as real;
    assert (g * n) as real == g as real * n as real;
  }

  lemma FloorTimes(x: real, n: nat, y: nat)
    requires n > 0 && x * n as real == y as real
    ensures x.Floor * n <= y < (x.Floor + 1) * n
  {
    TimesBetween(x.Floor, x, x.Floor + 1, n, y);
  }

  lemma ScaleReal(a: real, b: real, k: real)
    requires a <= b && 0.0 <= k
    ensures a * k <= b * k
  {
  }

  lemma ScaleStrict(a: real, b: real, k: real)
    requires a < b && 0.0 < k
    ensures a * k < b * k
  {
  }

  /** The ceiling is two seconds of the whole rate, and 32 MB at most. */
  lemma CeilingIs(rate: nat)
    ensures Ceiling(rate) == Min(2 * rate, 32_000_000)
  {
  }

  /** The automatic cap is the share of a slot, or four chunks if that is more,
      rounded up to whole chunks; where this would pass the ceiling it is all
      the whole chunks under the ceiling, and one chunk at least. */
  lemma AutoCapIs(rate: nat, slots: nat, chunk: nat)
    requires slots > 0 && chunk > 0
    ensures var want, cap := Max(Share(rate, slots), 4 * chunk), AutoCap(rate, slots, chunk);
            && (RoundUp(want, chunk) <= Ceiling(rate) ==> want <= cap < want + chunk)
            && (RoundUp(want, chunk) > Ceiling(rate) >= chunk ==> cap <= Ceiling(rate) < cap + chunk)
            && (Ceiling(rate) < chunk ==> cap == chunk)
  {
    var want, ceiling := Max(Share(rate, slots), 4 * chunk), Ceiling(rate);
    hide Share, Ceiling;
    RoundUpIs(want, chunk);
    RoundUpIs(ceiling, chunk);
    RoundDownIs(ceiling, chunk);
    RoundingIsBest(ceiling, RoundUp(want, chunk), chunk);
    RoundingIsBest(want, RoundUp(ceiling, chunk), chunk);
    assert chunk % chunk == 0;
    RoundingIsBest(ceiling, chunk, chunk);
  }

  // ---------------------------------------------------------------- the computations

  method ComputeAutoMaxBytes(cfg: RunConfig) returns (r: Result<nat>)
    ensures r.Err? <==> cfg.rate == 0
    ensures r.Ok? ==> r.value == AutoCap(cfg.rate, Max(cfg.maxInflight, 1), Max(cfg.chunkSize, 1))
  {
    if cfg.rate == 0 {
      return Err("--max-bytes auto requires --rate");
    }
    var w := Max(cfg.maxInflight, 1);
    var chunk := Max(cfg.chunkSize, 1);
    NonnegativeQuotient(cfg.rate as real, w as real);
    var bytes := ((cfg.rate as real / w as real) * AMORTIZE_SECONDS).Floor;
    var floorBytes := chunk * FLOOR_CHUNKS;
    var aggregateCap := (cfg.rate as real * RATE_HEADROOM_SECONDS).Floor;
    var ceilBytes := Min(aggregateCap, HARD_CAP_BYTES);
    bytes := Max(bytes, floorBytes);
    bytes := Min(bytes, ceilBytes);
    var aligned := ((bytes + chunk - 1) / chunk) * chunk;
    RoundUpIs(bytes, chunk);
    if aligned > ceilBytes {
      aligned := (ceilBytes / chunk) * chunk;
      RoundDownIs(ceilBytes, chunk);
    }
    AlignedIsAutoCap(cfg.rate, w, chunk);
    return Ok(Max(aligned, chunk));
  }

  /** The byte cap the run will use; an uncapped rate needs an explicit one. */
  function Resolved(cfg: RunConfig): Result<RunConfig> {
    if cfg.rate == 0 then
      if cfg.maxBytesAuto || cfg.maxBytes == 0 then Err("uncapped rate requires explicit max_bytes") else Ok(cfg)
    else if cfg.maxBytesAuto then
      Ok(cfg.(maxBytes := AutoCap(cfg.rate, Max(cfg.maxInflight, 1), Max(cfg.chunkSize, 1))))
    else Ok(cfg)
  }

  method ResolveRunConfig(cfg: RunConfig) returns (r: Result<RunConfig>)
    ensures r.Err? <==> Resolved(cfg).Err?
    ensures r.Ok? ==> r == Resolved(cfg)
  {
    if cfg.rate == 0 {
      if cfg.maxBytesAuto || cfg.maxBytes == 0 {
        return Err("uncapped rate requires explicit max_bytes (SIZE > 0); 'auto' and 0 are not allowed");
      }
      return Ok(cfg);
    }
    var resolved := cfg;
    if cfg.maxBytesAuto {
      var auto := ComputeAutoMaxBytes(cfg);
      resolved := resolved.(maxBytes := auto.value);
    }
    return Ok(resolved);
  }

  /** A resolved run is never both uncapped in rate and in bytes, and resolving
      again changes nothing. */
  lemma ResolvedIsStable(cfg: RunConfig)
    ensures Resolved(cfg).Ok? ==>
              var c := Resolved(cfg).value;
              && (c.rate == 0 ==> c.maxBytes > 0)
              && (c.maxBytesAuto ==> c.maxBytes > 0)
              && Resolved(c) == Ok(c)
  {
  }

  /** A configuration is turned down exactly if it has no rate and leaves the
      byte cap open; a cap set by hand is kept, an automatic one is computed,
      and nothing else is touched. */
  lemma ResolvedIs(cfg: RunConfig)
    ensures Resolved(cfg).Err? <==> cfg.rate == 0 && (cfg.maxBytesAuto || cfg.maxBytes == 0)
    ensures Resolved(cfg).Ok? ==>
              var c := Resolved(cfg).value;
              && c == cfg.(maxBytes := c.maxBytes)
              && (!cfg.maxBytesAuto ==> c.maxBytes == cfg.maxBytes)
              && (cfg.maxBytesAuto ==> c.maxBytes == AutoCap(cfg.rate, Max(cfg.maxInflight, 1), Max(cfg.chunkSize, 1)))
              && (cfg.maxBytesAuto ==> c.maxBytes % Max(cfg.chunkSize, 1) == 0 && c.maxBytes > 0)
  {
    hide AutoCap;
    if cfg.rate > 0 {
      AutoCapShape(cfg.rate, Max(cfg.maxInflight, 1), Max(cfg.chunkSize, 1));
    }
  }
}
