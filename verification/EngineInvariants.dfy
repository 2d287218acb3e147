/** What every reachable state of a run satisfies. */
module EngineInvariants {
  import opened TokenBuckets
  import opened Inflight
  import opened RunConfigs
  import opened Schedulers
  import opened SessionSpec
  import opened SessionLedger
  import opened EngineSpec

  // ---------------------------------------------------------------- sums over sessions

  function SumOf(ts: seq<Track>, f: Track -> nat): nat {
    if ts == [] then 0 else f(ts[0]) + SumOf(ts[1..], f)
  }

  lemma {:induction false} SumUpdate(ts: seq<Track>, i: nat, t: Track, f: Track -> nat)
    requires i < |ts|
    ensures SumOf(ts[i := t], f) + f(ts[i]) == SumOf(ts, f) + f(t)
    decreases |ts|
  {
    if i == 0 {
      assert ts[0 := t][1..] == ts[1..];
    } else {
      assert ts[i := t][1..] == ts[1..][i - 1 := t];
      SumUpdate(ts[1..], i - 1, t, f);
    }
  }

  lemma {:induction false} SumAppend(ts: seq<Track>, t: Track, f: Track -> nat)
    ensures SumOf(ts + [t], f) == SumOf(ts, f) + f(t)
    decreases |ts|
  {
    if ts == [] {
      assert [t][1..] == [];
      assert ts + [t] == [t];
    } else {
      assert (ts + [t])[1..] == ts[1..] + [t];
      SumAppend(ts[1..], t, f);
    }
  }

  lemma {:induction false} SumCovers(ts: seq<Track>, f: Track -> nat, g: Track -> nat)
    requires forall i :: 0 <= i < |ts| ==> f(ts[i]) <= g(ts[i])
    ensures SumOf(ts, f) <= SumOf(ts, g)
    decreases |ts|
  {
    if ts != [] {
      assert f(ts[0]) <= g(ts[0]);
      SumCovers(ts[1..], f, g);
    }
  }

  lemma {:induction false} SumZero(ts: seq<Track>, f: Track -> nat)
    ensures SumOf(ts, f) == 0 <==> forall i :: 0 <= i < |ts| ==> f(ts[i]) == 0
    decreases |ts|
  {
    if ts != [] {
      SumZero(ts[1..], f);
      assert forall i :: 0 < i < |ts| ==> ts[i] == ts[1..][i - 1];
    }
  }

  function ChargedTo(t: Track): nat { t.charged }
  function RefundedTo(t: Track): nat { t.refunded }
  function DeliveredTo(t: Track): nat { t.delivered }
  function KeptBy(t: Track): nat { if t.charged >= t.refunded then t.charged - t.refunded else 0 }
  function OpenOne(t: Track): nat { if t.s.completed then 0 else 1 }
  function OkBytes(t: Track): nat { if t.s.completed && t.s.result.ok then t.s.result.bytesRead else 0 }
  function OkOne(t: Track): nat { if t.s.completed && t.s.result.ok then 1 else 0 }

  // ---------------------------------------------------------------- custody

  function HeldOnce(pc: Pc, id: nat): nat {
    if Holds(pc, id) then 1 else 0
  }

  /** The number of custodians that hold session `id`: callback threads inside
      on_ready, the ready queue, and the engine thread. */
  function Places(sys: System, id: nat): nat {
    sys.parking[id] + sys.pushing[id] + multiset(sys.e.ready)[id] + HeldOnce(sys.e.pc, id)
  }

  /** Tokens the engine took for the next read of session `id` and still holds. */
  function PaidTo(sys: System, id: nat): nat {
    if sys.e.pc.Paid? && sys.e.pc.id == id then sys.e.pc.n else 0
  }

  // ---------------------------------------------------------------- the invariant

  ghost predicate TrackOk(sys: System, id: nat)
    requires id < |sys.tracks|
  {
    var t := sys.tracks[id];
    && Shape(t, Places(sys, id), PaidTo(sys, id))
    && Ledger(t, PaidTo(sys, id))
    && Counts(t) && Layout(t)
    && (sys.cfg.rate > 0 ==> OpBytes(t.s.opts) <= sys.e.bucket.capacity)
  }

  ghost predicate TracksOk(sys: System) {
    && (forall id: nat :: id < |sys.tracks| ==> TrackOk(sys, id))
    && (forall id: nat :: id >= |sys.tracks| ==> Places(sys, id) == 0)
  }

  /** The size the engine computed is still the size of the next read. */
  ghost predicate PriceOk(sys: System) {
    && (sys.e.pc.Priced? ==> sys.e.pc.id < |sys.tracks| && sys.e.pc.n == NextOpBytes(sys.tracks[sys.e.pc.id].s) > 0)
    && (sys.e.pc.Paid? ==> sys.e.pc.n > 0)
    && (sys.e.pc.Drawn? || sys.e.pc.Charged? || sys.e.pc.Admitted? ==>
          ReadLists.Fits(sys.e.pc.item.session) && sys.e.pc.item.opBytes == OpBytes(sys.e.pc.item.session) > 0
          && (sys.cfg.rate > 0 ==> sys.e.pc.item.opBytes <= sys.e.bucket.capacity))
  }

  /** Tokens taken for a session that does not exist yet. */
  function Uncommitted(pc: Pc): nat {
    if pc.Charged? || pc.Admitted? then pc.item.opBytes else 0
  }

  ghost predicate BucketOk(sys: System) {
    var b := sys.e.bucket;
    && b.Valid() && b.rate == sys.cfg.rate && b.capacity > 0
    && (sys.cfg.rate > 0 ==> b.capacity == BucketCapacity(sys.cfg))
    && sys.start <= b.last <= sys.now
    && (sys.cfg.rate > 0 ==>
          sys.acquired as real - sys.refunded as real + b.tokens
            <= b.capacity as real + b.rate as real * (b.last - sys.start))
  }

  ghost predicate TokensOk(sys: System) {
    && sys.acquired == SumOf(sys.tracks, ChargedTo) + Uncommitted(sys.e.pc)
    && sys.refunded == SumOf(sys.tracks, RefundedTo)
  }

  /** The semaphore slot the engine itself holds, before the session counts as live. */
  function EngineSlot(pc: Pc): nat {
    if pc.Slotted? || pc.Drawn? || pc.GivingBack? || pc.Charged? then 1 else 0
  }

  function Announced(pc: Pc): nat {
    if pc.Admitted? then 1 else 0
  }

  ghost predicate SlotsOk(sys: System) {
    && sys.e.max == Slots(sys.cfg.maxInflight)
    && sys.e.live == SumOf(sys.tracks, OpenOne) + sys.observing + Announced(sys.e.pc)
    && sys.e.slots == sys.e.live + sys.releasing + EngineSlot(sys.e.pc)
    && sys.e.slots <= sys.e.max
    && sys.okCount + sys.failCount + SumOf(sys.tracks, OpenOne) == |sys.tracks|
    && sys.admitted == |sys.tracks| + Announced(sys.e.pc)
    && sys.okCount == SumOf(sys.tracks, OkOne)
    && sys.bytesTotal == SumOf(sys.tracks, OkBytes)
  }

  function HeldNow(pc: Pc): seq<nat> {
    if pc.Popped? || pc.Unfinished? || pc.Priced? || pc.Refused? || pc.Paid? then [pc.id] else []
  }

  ghost predicate OrderOk(sys: System) {
    && sys.parkLog == sys.disposed + HeldNow(sys.e.pc) + sys.e.ready
    && (sys.e.stop <==> sys.e.pc.Sweeping? || sys.e.pc.Drained?)
  }

  ghost predicate Inv(sys: System) {
    Sane(sys.cfg) && TracksOk(sys) && PriceOk(sys) && BucketOk(sys) && TokensOk(sys) && SlotsOk(sys) && OrderOk(sys)
  }

  lemma InitialInv(cfg: RunConfig, start: real)
    requires Sane(cfg)
    ensures Inv(Initial(cfg, start))
  {
    var sys := Initial(cfg, start);
    if cfg.rate > 0 {
      CapacityHoldsEveryCharge(cfg, false);
      assert sys.e.bucket.rate as real * 0.0 == 0.0;
    }
  }

  /** Every session the shared state names exists. */
  lemma InvKnown(sys: System)
    requires TracksOk(sys)
    ensures Known(sys)
  {
    forall id: nat | Holds(sys.e.pc, id)
      ensures id < |sys.tracks|
    {
      assert Places(sys, id) > 0;
    }
    forall k | 0 <= k < |sys.e.ready|
      ensures sys.e.ready[k] < |sys.tracks|
    {
      assert sys.e.ready[k] in multiset(sys.e.ready);
      assert Places(sys, sys.e.ready[k]) > 0;
    }
    forall id: nat | sys.parking[id] > 0
      ensures id < |sys.tracks|
    {
      assert Places(sys, id) > 0;
    }
  }

  /** A step that keeps the engine's position and the size it computed. */
  lemma PriceUnchanged(sys: System, next: System)
    requires PriceOk(sys) && next.e.pc == sys.e.pc && next.cfg == sys.cfg
    requires next.e.bucket.capacity == sys.e.bucket.capacity
    requires |next.tracks| == |sys.tracks|
    requires sys.e.pc.Priced? ==> NextOpBytes(next.tracks[sys.e.pc.id].s) == NextOpBytes(sys.tracks[sys.e.pc.id].s)
    ensures PriceOk(next)
  {
    hide NextOpBytes, OpBytes, ReadLists.Fits;
  }

  // ---------------------------------------------------------------- one handler inside a run

  /** What the invariant says about session `id`, with explicit custody. */
  ghost predicate SessionOk(sys: System, t: Track, places: nat, paid: nat) {
    && Shape(t, places, paid) && Ledger(t, paid) && Counts(t) && Layout(t)
    && (sys.cfg.rate > 0 ==> OpBytes(t.s.opts) <= sys.e.bucket.capacity)
  }

  lemma SessionStep(sys: System, t: Track, h: Handler, places: nat, paid: nat)
    requires SessionOk(sys, t, places, paid) && Possible(t, h) && Lawful(h, places, paid)
    ensures var (t', fx) := Advance(t, h);
            && SessionOk(sys, t', PlacesAfter(h, places, fx), PaidAfter(h, paid))
            && Coherent(t.s, t'.s, t'.owed, fx)
            && t'.charged == t.charged && t'.refunded == t.refunded + fx.refunded
  {
    AdvanceShape(t, h, places, paid);
    AdvanceLedger(t, h, places, paid);
    AdvanceTiles(t, h, places, paid);
    hide Shape, Ledger, Counts, Layout, Handle, Possible, OpBytes, Lawful;
  }

  /** `mid` is the state after the custodian, if any, let go of session `id`. */
  ghost predicate BeforeTouch(mid: System, id: nat, h: Handler, places: nat, paid: nat) {
    && id < |mid.tracks| && Possible(mid.tracks[id], h) && Lawful(h, places, paid)
    && SessionOk(mid, mid.tracks[id], places, paid)
    && Places(mid, id) == (if h.Custodial() then 0 else places)
    && PaidTo(mid, id) == PaidAfter(h, paid)
    && (forall j: nat :: j < |mid.tracks| && j != id ==> TrackOk(mid, j))
    && (forall j: nat :: j >= |mid.tracks| ==> Places(mid, j) == 0)
  }

  /** Only session `k` and its custody differ between the two states. */
  ghost predicate OnlyAt(sys: System, next: System, k: nat) {
    && k < |next.tracks| && (|next.tracks| == |sys.tracks| || (|next.tracks| == |sys.tracks| + 1 && k == |sys.tracks|))
    && next.cfg == sys.cfg && next.e.bucket.capacity == sys.e.bucket.capacity
    && (forall j: nat :: j < |sys.tracks| && j != k ==> next.tracks[j] == sys.tracks[j])
    && (forall j: nat :: j != k ==> Places(next, j) == Places(sys, j))
    && (forall j: nat :: j != k ==> PaidTo(next, j) == PaidTo(sys, j))
  }

  lemma TracksExcept(sys: System, next: System, k: nat)
    requires OnlyAt(sys, next, k) && SessionOk(sys, next.tracks[k], Places(next, k), PaidTo(next, k))
    requires forall j: nat :: j < |sys.tracks| && j != k ==> TrackOk(sys, j)
    requires forall j: nat :: j >= |sys.tracks| ==> Places(sys, j) == 0
    ensures TracksOk(next)
  {
    hide Places, PaidTo, SessionOk, TrackOk;
    forall j: nat | j < |next.tracks|
      ensures TrackOk(next, j)
    {
      if j != k {
        assert TrackOk(sys, j);
        assert Places(next, j) == Places(sys, j) && PaidTo(next, j) == PaidTo(sys, j);
        TrackElsewhere(sys, next, j);
      } else {
        SessionIsTrack(sys, next, k);
      }
    }
    forall j: nat | j >= |next.tracks|
      ensures Places(next, j) == 0
    {
      assert Places(next, j) == Places(sys, j);
    }
  }

  lemma TouchOnlyAt(mid: System, id: nat, h: Handler)
    requires id < |mid.tracks| && Possible(mid.tracks[id], h)
    ensures OnlyAt(mid, Touch(mid, id, h), id)
    ensures Touch(mid, id, h).tracks[id] == Advance(mid.tracks[id], h).0
    ensures Places(Touch(mid, id, h), id) == Places(mid, id) + (if Advance(mid.tracks[id], h).1.parked then 1 else 0)
    ensures PaidTo(Touch(mid, id, h), id) == PaidTo(mid, id)
  {
    hide Advance, Possible;
  }

  lemma TouchTracks(mid: System, id: nat, h: Handler, places: nat, paid: nat)
    requires BeforeTouch(mid, id, h, places, paid)
    ensures TracksOk(Touch(mid, id, h))
  {
    SessionStep(mid, mid.tracks[id], h, places, paid);
    TouchOnlyAt(mid, id, h);
    hide SessionOk, Touch, Advance, Possible, Lawful, Places, PaidTo, TrackOk;
    TracksExcept(mid, Touch(mid, id, h), id);
  }

  lemma SessionIsTrack(mid: System, next: System, id: nat)
    requires id < |next.tracks| && SessionOk(mid, next.tracks[id], Places(next, id), PaidTo(next, id))
    requires next.cfg == mid.cfg && next.e.bucket.capacity == mid.e.bucket.capacity
    ensures TrackOk(next, id)
  {
    hide Shape, Ledger, Counts, Layout;
  }

  lemma TrackIsSession(sys: System, id: nat)
    requires id < |sys.tracks| && TrackOk(sys, id)
    ensures SessionOk(sys, sys.tracks[id], Places(sys, id), PaidTo(sys, id))
  {
    hide Shape, Ledger, Counts, Layout;
  }

  lemma TrackElsewhere(mid: System, next: System, j: nat)
    requires j < |mid.tracks| && j < |next.tracks| && TrackOk(mid, j)
    requires next.tracks[j] == mid.tracks[j] && Places(next, j) == Places(mid, j) && PaidTo(next, j) == PaidTo(mid, j)
    requires next.cfg == mid.cfg && next.e.bucket.capacity == mid.e.bucket.capacity
    ensures TrackOk(next, j)
  {
    hide Shape, Ledger, Counts, Layout;
  }

  /** The level and the account after a refund. */
  lemma RefundBucket(sys: System, n: nat)
    requires BucketOk(sys)
    ensures BucketOk(GiveBackTokens(sys, n))
  {
    var b := sys.e.bucket;
    if b.rate > 0 && n > 0 {
      RefillSupply(b, sys.start, sys.now);
      RefillValid(b, sys.now);
      hide Refill;
    }
  }

  /** Refilling keeps the level under what the rate has supplied so far. */
  lemma RefillSupply(b: Bucket, start: real, now: real)
    requires b.Valid() && b.rate > 0 && start <= b.last <= now
    ensures var r := Refill(b, now);
            && r.tokens - b.rate as real * (r.last - start) <= b.tokens - b.rate as real * (b.last - start)
            && b.last <= r.last <= now && r.rate == b.rate && r.capacity == b.capacity
  {
    RefillGain(b, now);
    SplitTime(b.rate as real, start, b.last, now);
  }

  lemma TakeBucket(sys: System, n: nat)
    requires BucketOk(sys)
    ensures var (b, taken) := Take(sys.e.bucket, n, sys.now);
            BucketOk(sys.(e := sys.e.(bucket := b), acquired := sys.acquired + (if taken then n else 0)))
    ensures Take(sys.e.bucket, n, sys.now).0.capacity == sys.e.bucket.capacity
  {
    var b := sys.e.bucket;
    if b.rate > 0 && 0 < n <= b.capacity {
      RefillSupply(b, sys.start, sys.now);
      RefillValid(b, sys.now);
      hide Refill;
    }
  }

  lemma TouchTokens(mid: System, id: nat, h: Handler)
    requires id < |mid.tracks| && Possible(mid.tracks[id], h) && TokensOk(mid)
    ensures TokensOk(Touch(mid, id, h))
  {
    var (t', fx) := Advance(mid.tracks[id], h);
    assert t'.charged == mid.tracks[id].charged && t'.refunded == mid.tracks[id].refunded + fx.refunded;
    hide Advance, Possible, PutBack;
    SumUpdate(mid.tracks, id, t', ChargedTo);
    SumUpdate(mid.tracks, id, t', RefundedTo);
    hide SumOf;
  }

  lemma BucketUnchanged(a: System, b: System)
    requires BucketOk(a)
    requires b.e.bucket == a.e.bucket && b.cfg == a.cfg && b.start == a.start && b.now == a.now
    requires b.acquired == a.acquired && b.refunded == a.refunded
    ensures BucketOk(b)
  {
  }

  lemma TouchBucket(mid: System, id: nat, h: Handler)
    requires id < |mid.tracks| && Possible(mid.tracks[id], h) && BucketOk(mid)
    ensures BucketOk(Touch(mid, id, h))
  {
    var (t', fx) := Advance(mid.tracks[id], h);
    RefundBucket(mid, fx.refunded);
    hide Advance, Possible, PutBack, BucketOk;
    BucketUnchanged(GiveBackTokens(mid, fx.refunded), Touch(mid, id, h));
  }

  lemma TouchSlots(mid: System, id: nat, h: Handler)
    requires id < |mid.tracks| && Possible(mid.tracks[id], h) && SlotsOk(mid)
    requires var (t', fx) := Advance(mid.tracks[id], h); Coherent(mid.tracks[id].s, t'.s, t'.owed, fx)
    requires mid.tracks[id].s.result.ok ==> mid.tracks[id].s.completed
    ensures SlotsOk(Touch(mid, id, h))
  {
    hide Advance, Possible, PutBack, SumOf;
    var (t', fx) := Advance(mid.tracks[id], h);
    hide Advance, Possible, PutBack;
    SumUpdate(mid.tracks, id, t', OpenOne);
    SumUpdate(mid.tracks, id, t', OkOne);
    SumUpdate(mid.tracks, id, t', OkBytes);
    hide SumOf;
  }

  lemma TouchCounts(mid: System, id: nat, h: Handler, places: nat, paid: nat)
    requires BeforeTouch(mid, id, h, places, paid) && TokensOk(mid) && SlotsOk(mid) && BucketOk(mid)
    ensures TokensOk(Touch(mid, id, h)) && SlotsOk(Touch(mid, id, h)) && BucketOk(Touch(mid, id, h))
  {
    SessionStep(mid, mid.tracks[id], h, places, paid);
    ResultNeedsCompletion(mid, mid.tracks[id], places, paid);
    TouchTokens(mid, id, h);
    TouchBucket(mid, id, h);
    hide SessionOk, Touch, TokensOk, BucketOk, SlotsOk;
    TouchSlots(mid, id, h);
  }

  lemma ResultNeedsCompletion(sys: System, t: Track, places: nat, paid: nat)
    requires SessionOk(sys, t, places, paid)
    ensures t.s.result.ok ==> t.s.completed
  {
    hide Ledger, Counts, Layout, OpBytes;
  }
}
