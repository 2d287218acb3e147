/** The promises of a paced run, over every interleaving of any length. */
module EngineRuns {
  import opened Prelude
  import opened TokenBuckets
  import opened Inflight
  import opened RunConfigs
  import opened Schedulers
  import opened SessionSpec
  import opened SessionLedger
  import opened EngineSpec
  import opened EngineInvariants
  import opened EngineSteps

  /** A sequence of steps each of which can happen when its turn comes. */
  ghost predicate Legal(sys: System, evs: seq<Event>)
    decreases |evs|
  {
    evs == [] || (Known(sys) && Enabled(sys, evs[0]) && Legal(Step(sys, evs[0]), evs[1..]))
  }

  ghost function After(sys: System, evs: seq<Event>): System
    requires Legal(sys, evs)
    decreases |evs|
  {
    if evs == [] then sys else After(Step(sys, evs[0]), evs[1..])
  }

  lemma {:induction false} RunKeeps(sys: System, evs: seq<Event>)
    requires Inv(sys) && Known(sys) && Legal(sys, evs)
    ensures Inv(After(sys, evs)) && Known(After(sys, evs))
    decreases |evs|
  {
    if evs != [] {
      StepKeeps(sys, evs[0]);
      hide Inv, Known, Enabled, Step;
      RunKeeps(Step(sys, evs[0]), evs[1..]);
    }
  }

  lemma {:induction false} RunConstants(sys: System, evs: seq<Event>)
    requires Legal(sys, evs)
    ensures After(sys, evs).cfg == sys.cfg && After(sys, evs).start == sys.start
    decreases |evs|
  {
    if evs != [] {
      StepConstants(sys, evs[0]);
      hide Known, Enabled, Step;
      RunConstants(Step(sys, evs[0]), evs[1..]);
    }
  }

  lemma StepConstants(sys: System, ev: Event)
    requires Known(sys) && Enabled(sys, ev)
    ensures Step(sys, ev).cfg == sys.cfg && Step(sys, ev).start == sys.start
  {
    hide Advance, Begin, Take, PutBack, Possible;
  }

  /** A state some run of this configuration reaches. */
  ghost predicate Reachable(cfg: RunConfig, sys: System) {
    exists start: real, evs: seq<Event> :: Legal(Initial(cfg, start), evs) && sys == After(Initial(cfg, start), evs)
  }

  lemma ReachableInv(cfg: RunConfig, sys: System)
    requires Sane(cfg) && Reachable(cfg, sys)
    ensures Inv(sys) && Known(sys) && sys.cfg == cfg
  {
    var start: real, evs: seq<Event> :| Legal(Initial(cfg, start), evs) && sys == After(Initial(cfg, start), evs);
    InitialInv(cfg, start);
    InvKnown(Initial(cfg, start));
    hide Inv, Known;
    RunKeeps(Initial(cfg, start), evs);
    RunConstants(Initial(cfg, start), evs);
  }

  // ---------------------------------------------------------------- the rate ceiling

  /** Tokens kept by all sessions together, against the two totals. */
  lemma {:induction false} KeptIsDifference(ts: seq<Track>)
    requires forall i :: 0 <= i < |ts| ==> ts[i].charged >= ts[i].refunded
    ensures SumOf(ts, ChargedTo) == SumOf(ts, RefundedTo) + SumOf(ts, KeptBy)
    decreases |ts|
  {
    if ts != [] {
      assert ts[0].charged >= ts[0].refunded;
      KeptIsDifference(ts[1..]);
    }
  }

  lemma TracksCover(sys: System)
    requires TracksOk(sys)
    ensures forall i :: 0 <= i < |sys.tracks| ==>
              sys.tracks[i].charged >= sys.tracks[i].refunded + sys.tracks[i].delivered
    ensures forall i :: 0 <= i < |sys.tracks| ==>
              OkBytes(sys.tracks[i]) <= DeliveredTo(sys.tracks[i]) <= KeptBy(sys.tracks[i])
  {
    forall i | 0 <= i < |sys.tracks|
      ensures sys.tracks[i].charged >= sys.tracks[i].refunded + sys.tracks[i].delivered
      ensures OkBytes(sys.tracks[i]) <= DeliveredTo(sys.tracks[i]) <= KeptBy(sys.tracks[i])
    {
      assert TrackOk(sys, i);
      TokensCoverDelivery(sys.tracks[i], Places(sys, i), PaidTo(sys, i));
      hide Counts, Layout, Phases, Callbacks;
    }
  }

  /** In every reachable state of a paced run, the bytes all servers have
      returned, late replies included, are at most one bucketful plus what the
      target rate supplies in the elapsed time; the exported byte counter is
      no larger. A bucketful is the largest charge any draw can make. */
  lemma RateCeiling(cfg: RunConfig, sys: System)
    requires Sane(cfg) && cfg.rate > 0 && Reachable(cfg, sys)
    ensures sys.bytesTotal <= SumOf(sys.tracks, DeliveredTo)
    ensures SumOf(sys.tracks, DeliveredTo) as real
         <= BucketCapacity(cfg) as real + cfg.rate as real * (sys.now - sys.start)
    ensures forall n: nat :: LargestCharge(cfg, n) && !NeverVector(cfg) ==>
              SumOf(sys.tracks, DeliveredTo) as real <= n as real + cfg.rate as real * (sys.now - sys.start)
  {
    hide LargestCharge, BucketCapacity;
    ReachableInv(cfg, sys);
    TracksCover(sys);
    SumCovers(sys.tracks, OkBytes, DeliveredTo);
    SumCovers(sys.tracks, DeliveredTo, KeptBy);
    KeptIsDifference(sys.tracks);
    CeilingArithmetic(cfg, sys);
    forall n: nat | LargestCharge(cfg, n) && !NeverVector(cfg)
      ensures n == BucketCapacity(cfg)
    {
      LargestIsCapacity(cfg, n);
    }
  }

  lemma CeilingArithmetic(cfg: RunConfig, sys: System)
    requires cfg.rate > 0 && sys.cfg == cfg && BucketOk(sys) && TokensOk(sys)
    requires SumOf(sys.tracks, DeliveredTo) <= SumOf(sys.tracks, KeptBy)
    requires SumOf(sys.tracks, ChargedTo) == SumOf(sys.tracks, RefundedTo) + SumOf(sys.tracks, KeptBy)
    ensures SumOf(sys.tracks, DeliveredTo) as real
         <= BucketCapacity(cfg) as real + cfg.rate as real * (sys.now - sys.start)
  {
    hide SumOf, BucketCapacity;
    var r, part, whole := cfg.rate as real, sys.e.bucket.last - sys.start, sys.now - sys.start;
    ScaleMonotone(part, whole, r);
    assert part * r == r * part && whole * r == r * whole;
    var delivered := SumOf(sys.tracks, DeliveredTo);
    assert delivered <= sys.acquired - sys.refunded;
    assert delivered as real <= sys.acquired as real - sys.refunded as real;
    var b := sys.e.bucket;
    var kept := sys.acquired as real - sys.refunded as real;
    UnderCeiling(delivered as real, kept, b.tokens, b.capacity as real, r * part, r * whole);
  }

  lemma UnderCeiling(delivered: real, net: real, level: real, capacity: real, early: real, all: real)
    requires delivered <= net && net + level <= capacity + early && 0.0 <= level && early <= all
    ensures delivered <= capacity + all
  {
  }

  /** Every wait the engine computes ends within the time to fill the bucket. */
  lemma WaitsAreBounded(cfg: RunConfig, sys: System)
    requires Sane(cfg) && cfg.rate > 0 && Reachable(cfg, sys) && (sys.e.pc.Priced? || sys.e.pc.Drawn?)
    ensures var n := if sys.e.pc.Priced? then sys.e.pc.n else sys.e.pc.item.opBytes;
            && 0 < n <= sys.e.bucket.capacity
            && WaitFor(sys.e.bucket, n, sys.now).1 <= BucketCapacity(cfg) as real / cfg.rate as real
  {
    ReachableInv(cfg, sys);
    if sys.e.pc.Priced? {
      assert Holds(sys.e.pc, sys.e.pc.id);
      ParkedPrice(sys, sys.e.pc.id);
    }
    var n := if sys.e.pc.Priced? then sys.e.pc.n else sys.e.pc.item.opBytes;
    assert 0 < n <= sys.e.bucket.capacity;
    hide TracksOk, PriceOk, TokensOk, SlotsOk, OrderOk, BucketCapacity;
    assert sys.e.bucket.Valid() && sys.e.bucket.last <= sys.now && sys.e.bucket.rate == cfg.rate;
    hide WaitFor, Refill;
    WaitIsExact(sys.e.bucket, n, sys.now, 0.0);
  }

  // ---------------------------------------------------------------- sessions of a run

  /** No session is ever stranded while the run lasts: until it completes, a
      callback is owed or exactly one custodian holds it, and never is more
      than one Open, Stat or Read outstanding. While it waits for tokens the
      deadline table has no entry for it, unless it already timed out. */
  lemma NoSessionStranded(cfg: RunConfig, sys: System, id: nat)
    requires Sane(cfg) && Reachable(cfg, sys) && id < |sys.tracks|
    ensures var t := sys.tracks[id];
            && Places(sys, id) <= 1 && t.owed.Work() <= 1 && t.owed.close <= 1
            && (!t.s.completed ==> t.owed.Total() > 0 || Places(sys, id) == 1)
            && (Places(sys, id) == 1 ==> t.owed.Work() == 0 && t.s.remaining > 0)
            && (Places(sys, id) == 1 && !t.s.completed && !t.s.timedOut ==> t.owed.Total() == 0 && !t.entry)
  {
    ReachableInv(cfg, sys);
    assert TrackOk(sys, id);
    hide Ledger, Counts, Layout, OpBytes;
  }

  /** The pending counter is the number of callbacks XrdCl still owes, on_done
      has fired exactly for completed sessions, and the session keeps itself
      alive exactly until it is completed and nothing is owed. */
  lemma CallbacksFindTheSession(cfg: RunConfig, sys: System, id: nat)
    requires Sane(cfg) && Reachable(cfg, sys) && id < |sys.tracks|
    ensures var t := sys.tracks[id];
            && t.s.pending == t.owed.Total()
            && (t.owed.Total() > 0 ==> t.s.held)
            && (!t.s.held <==> t.s.completed && t.owed.Total() == 0)
            && t.dones == (if t.s.completed then 1 else 0) && (!t.s.completed ==> t.s.result == NO_REPORT)
  {
    hide Ledger, Counts, Layout, Phases;
    ReachableInv(cfg, sys);
    assert TrackOk(sys, id);
  }

  /** A completed session submits nothing, refunds nothing, and its report stays. */
  lemma NothingAfterCompletion(cfg: RunConfig, sys: System, id: nat, h: Handler)
    requires Sane(cfg) && Reachable(cfg, sys) && id < |sys.tracks| && Possible(sys.tracks[id], h)
    requires Lawful(h, Places(sys, id), PaidTo(sys, id)) && sys.tracks[id].s.completed
    ensures var (t', fx) := Advance(sys.tracks[id], h);
            && t'.s.completed && t'.s.result == sys.tracks[id].s.result
            && fx.accepted == None && fx.refunded == 0 && fx.done == None && t'.issued == sys.tracks[id].issued
  {
    ReachableInv(cfg, sys);
    assert TrackOk(sys, id);
    var t := sys.tracks[id];
    AdvanceShape(t, h, Places(sys, id), PaidTo(sys, id));
    hide TracksOk, Shape, Handle, Possible, Lawful;
    assert t.issued + [] == t.issued;
  }

  /** The account of one session in any reachable state. */
  lemma SessionAccount(cfg: RunConfig, sys: System, id: nat)
    requires Sane(cfg) && Reachable(cfg, sys) && id < |sys.tracks|
    ensures var t := sys.tracks[id];
            && t.charged == t.refunded + t.s.bytesRead + t.s.prepaid + InFlight(t) + PaidTo(sys, id) + t.forfeited
            && (!t.s.timedOut ==> t.forfeited == 0 && t.delivered == t.s.bytesRead)
            && (t.s.completed && !t.s.timedOut ==> t.charged - t.refunded == t.s.result.bytesRead)
            && t.charged - t.refunded >= t.delivered
  {
    ReachableInv(cfg, sys);
    assert TrackOk(sys, id);
    TokensCoverDelivery(sys.tracks[id], Places(sys, id), PaidTo(sys, id));
    hide Counts, Layout, Callbacks;
  }

  /** The reads of one session in any reachable state: inside the file, within
      the chunk size, contiguous from the start offset when sequential, never
      more than the plan, and exactly the plan for an undisturbed ok session;
      every piece lands inside the allocated buffer. */
  lemma SessionReads(cfg: RunConfig, sys: System, id: nat)
    requires Sane(cfg) && Reachable(cfg, sys) && id < |sys.tracks| && sys.tracks[id].s.budgetSet
    ensures var t := sys.tracks[id];
            var plan, op := PlannedBytes(t.s.opts, t.s.fileSize), OpBytes(t.s.opts);
            && ReadLists.InFile(t.issued, t.s.fileSize) && ReadLists.Sized(t.issued, t.s.opts.chunkSize)
            && (!t.s.opts.randomOffset ==> ReadLists.Abut(t.issued, t.s.opts.offset))
            && op > 0 && t.s.bytesRead <= plan && t.s.ops <= CeilDiv(plan, op)
            && ReadLists.InBuffer(t.issued, op)
            && (t.s.result.ok && !t.short && !t.cut ==>
                  TotalLen(t.issued) == plan && t.s.result.bytesRead == plan && t.s.result.ops == CeilDiv(plan, op))
  {
    ReachableInv(cfg, sys);
    assert TrackOk(sys, id);
    OkReadsThePlan(sys.tracks[id], Places(sys, id), PaidTo(sys, id));
    hide Shape, Counts, Ledger, PlannedBytes, CeilDiv, OpBytes, ReadLists.Abut;
  }

  /** The pieces of any read a session may submit next use disjoint slices of
      the session's buffer, all inside it. */
  lemma SubmittedSlices(cfg: RunConfig, sys: System, id: nat, h: Handler)
    requires Sane(cfg) && Reachable(cfg, sys) && id < |sys.tracks| && Possible(sys.tracks[id], h)
    requires Lawful(h, Places(sys, id), PaidTo(sys, id))
    ensures var cs := Advance(sys.tracks[id], h).1.chunks;
            && ReadLists.InBuffer(cs, OpBytes(sys.tracks[id].s.opts))
            && forall j, k :: 0 <= j < k < |cs| ==> cs[j].buf + cs[j].len <= cs[k].buf
  {
    hide Shape, Counts, Layout, Ledger, Handle, Possible, Lawful, Reachable, OpBytes, Places, PaidTo;
    ReachableInv(cfg, sys);
    assert TrackOk(sys, id);
    var t, cs := sys.tracks[id], Advance(sys.tracks[id], h).1.chunks;
    AdvancePacked(t, h, Places(sys, id), PaidTo(sys, id));
    AdvanceTiles(t, h, Places(sys, id), PaidTo(sys, id));
    AdvanceShape(t, h, Places(sys, id), PaidTo(sys, id));
    NewInBuffer(t, h);
    forall j, k | 0 <= j < k < |cs|
      ensures cs[j].buf + cs[j].len <= cs[k].buf
    {
      ReadLists.SlicesDisjoint(cs, 0, j, k);
    }
  }

  lemma NewInBuffer(t: Track, h: Handler)
    requires Possible(t, h) && Layout(Advance(t, h).0) && Advance(t, h).0.s.opts == t.s.opts
    ensures ReadLists.InBuffer(Advance(t, h).1.chunks, OpBytes(t.s.opts))
  {
    hide Handle, OpBytes, Answered;
    var cs, issued := Advance(t, h).1.chunks, Advance(t, h).0.issued;
    forall k | 0 <= k < |cs|
      ensures cs[k].buf + cs[k].len <= OpBytes(t.s.opts)
    {
      assert issued[|t.issued| + k] == cs[k];
    }
  }

  // ---------------------------------------------------------------- slots

  /** Sessions, slots and the live counter in any reachable state. */
  lemma SlotAccount(cfg: RunConfig, sys: System)
    requires Sane(cfg) && Reachable(cfg, sys)
    ensures 0 <= sys.e.live <= sys.e.slots <= Slots(cfg.maxInflight)
    ensures cfg.maxInflight > 0 ==> sys.e.live <= cfg.maxInflight
    ensures sys.e.slots == sys.e.live + sys.releasing + EngineSlot(sys.e.pc)
    ensures sys.admitted == sys.okCount + sys.failCount + sys.e.live - sys.observing
    ensures sys.releasing > 0 ==> sys.e.slots > 0
    ensures sys.observing == 0 && sys.releasing == 0 && EngineSlot(sys.e.pc) == 0 ==>
              sys.e.slots == sys.e.live && sys.admitted == sys.okCount + sys.failCount + sys.e.live
  {
    ReachableInv(cfg, sys);
    hide TracksOk, PriceOk, TokensOk, BucketOk, OrderOk, SumOf;
  }
}
