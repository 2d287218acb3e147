/** The rate ceiling over any window of a run. */
module Windows {
  import opened TokenBuckets
  import opened RunConfigs
  import opened Schedulers
  import opened SessionLedger
  import opened EngineSpec
  import opened EngineInvariants
  import opened EngineSteps
  import opened EngineRuns

  /** The bucket level at this moment. */
  function Level(sys: System): real {
    Refill(sys.e.bucket, sys.now).tokens
  }

  /** Tokens out minus tokens back so far. */
  function Spent(sys: System): int {
    sys.acquired - sys.refunded
  }

  /** What left the bucket came from its level or from the rate. */
  ghost predicate Affordable(sys: System, next: System) {
    Spent(next) as real - Spent(sys) as real + Level(next) <= Level(sys) + sys.cfg.rate as real * (next.now - sys.now)
  }

  lemma SameBucketAffords(sys: System, next: System)
    requires next.e.bucket == sys.e.bucket && next.now == sys.now
    requires next.acquired == sys.acquired && next.refunded == sys.refunded
    ensures Affordable(sys, next)
  {
    NoTime(sys.cfg.rate as real, sys.now);
  }

  lemma NoTime(r: real, t: real)
    ensures r * (t - t) == 0.0
  {
  }

  /** One call on the bucket at the present instant. */
  lemma CallAffords(sys: System, next: System, c: Call)
    requires BucketOk(sys) && sys.cfg.rate > 0 && c.at == sys.now && next.now == sys.now
    requires next.e.bucket == Perform(sys.e.bucket, c)
    requires Spent(next) == Spent(sys) + NetOf(sys.e.bucket, c)
    ensures Affordable(sys, next)
  {
    hide Refill, Perform, NetOf;
    PerformSpends(sys.e.bucket, c);
    NoTime(sys.cfg.rate as real, sys.now);
  }

  lemma TickAffords(sys: System, dt: real)
    requires BucketOk(sys) && sys.cfg.rate > 0 && dt >= 0.0
    ensures Affordable(sys, sys.(now := sys.now + dt))
  {
    hide Refill;
    LevelGain(sys.e.bucket, sys.now, sys.now + dt);
  }

  /** `mid` differs from `sys` in nothing the bucket is about. */
  ghost predicate SamePurse(sys: System, mid: System) {
    && mid.e.bucket == sys.e.bucket && mid.now == sys.now && mid.cfg == sys.cfg
    && mid.acquired == sys.acquired && mid.refunded == sys.refunded
  }

  lemma TouchAffords(sys: System, mid: System, id: nat, h: Handler)
    requires BucketOk(sys) && sys.cfg.rate > 0 && SamePurse(sys, mid)
    requires id < |mid.tracks| && Possible(mid.tracks[id], h)
    ensures Affordable(sys, Touch(mid, id, h))
  {
    hide Advance, Possible, BucketOk;
    CallAffords(sys, Touch(mid, id, h), GiveBack(Advance(mid.tracks[id], h).1.refunded, sys.now));
  }

  lemma StartAffords(sys: System, item: WorkItem, accept: bool)
    requires BucketOk(sys) && sys.cfg.rate > 0
    ensures Affordable(sys, StartSession(sys, item, accept))
  {
    hide Begin, BucketOk;
    var refunded := Begin(item.session, item.opBytes, accept).1.refunded;
    CallAffords(sys, StartSession(sys, item, accept), GiveBack(refunded, sys.now));
  }

  lemma PayAffords(sys: System, id: nat, n: nat)
    requires BucketOk(sys) && sys.cfg.rate > 0 && id < |sys.tracks|
    ensures Affordable(sys, PayContinuation(sys, id, n))
  {
    hide Refill, BucketOk;
    CallAffords(sys, PayContinuation(sys, id, n), Acquire(n, sys.now));
  }

  lemma AdmissionAffords(sys: System, item: WorkItem)
    requires BucketOk(sys) && sys.cfg.rate > 0
    ensures Affordable(sys, PayAdmission(sys, item))
  {
    hide Refill, BucketOk;
    CallAffords(sys, PayAdmission(sys, item), Acquire(item.opBytes, sys.now));
  }

  lemma EngineAffords(sys: System, io: Io)
    requires Known(sys) && BucketOk(sys) && sys.cfg.rate > 0
    ensures Affordable(sys, EngineStep(sys, io))
  {
    hide Touch, StartSession, PayContinuation, PayAdmission, BucketOk, Affordable, Item;
    match sys.e.pc {
      case Priced(id, n) =>
        assert Holds(sys.e.pc, id);
        if n == 0 {
          TouchAffords(sys, Dispose(sys, id), id, EngineClose(io.accept));
        } else {
          PayAffords(sys, id, n);
        }
      case Paid(id, n) =>
        assert Holds(sys.e.pc, id);
        TouchAffords(sys, Dispose(sys, id), id, EngineIssue(n, io.accept, io.draws));
      case Drawn(item) => AdmissionAffords(sys, item);
      case Admitted(item) => StartAffords(sys, item, io.accept);
      case Sweeping =>
        if |sys.e.ready| > 0 {
          var id := sys.e.ready[0];
          var swept := sys.(e := sys.e.(ready := sys.e.ready[1..]), disposed := sys.disposed + [id]);
          TouchAffords(sys, swept, id, EngineClose(io.accept));
        } else {
          SameBucketAffords(sys, EngineStep(sys, io));
        }
      case _ => SameBucketAffords(sys, EngineStep(sys, io));
    }
  }

  lemma StepAffords(sys: System, ev: Event)
    requires Inv(sys) && Known(sys) && Enabled(sys, ev) && sys.cfg.rate > 0
    ensures Affordable(sys, Step(sys, ev))
  {
    hide Touch, EngineStep, BucketOk, TracksOk, SlotsOk, TokensOk, PriceOk, OrderOk, Affordable;
    match ev {
      case Tick(dt) => TickAffords(sys, dt);
      case Callback(id, h) => TouchAffords(sys, sys, id, h);
      case CheckStop(id, accept) =>
        if sys.e.stop {
          TouchAffords(sys, sys.(parking := sys.parking - multiset{id}), id, EngineClose(accept));
        } else {
          SameBucketAffords(sys, Step(sys, ev));
        }
      case EngineAct(io) => EngineAffords(sys, io);
      case _ => SameBucketAffords(sys, Step(sys, ev));
    }
  }

  lemma AffordsJoin(a: System, b: System, c: System)
    requires Affordable(a, b) && Affordable(b, c) && b.cfg == a.cfg
    ensures Affordable(a, c)
  {
    hide Level;
    SplitTime(a.cfg.rate as real, a.now, b.now, c.now);
  }

  lemma {:induction false} RunAffords(sys: System, evs: seq<Event>)
    requires Inv(sys) && Known(sys) && Legal(sys, evs) && sys.cfg.rate > 0
    ensures Affordable(sys, After(sys, evs))
    decreases |evs|
  {
    hide Inv, Known, Enabled, Step, Affordable;
    if evs == [] {
      SameBucketAffords(sys, sys);
    } else {
      var next := Step(sys, evs[0]);
      StepAffords(sys, evs[0]);
      StepKeeps(sys, evs[0]);
      StepConstants(sys, evs[0]);
      RunAffords(next, evs[1..]);
      AffordsJoin(sys, next, After(sys, evs));
    }
  }

  // ---------------------------------------------------------------- bytes

  function Delivered(sys: System): nat {
    SumOf(sys.tracks, DeliveredTo)
  }

  /** Tokens one session holds that no delivered byte has used up. */
  function Unused(t: Track): nat {
    if t.charged >= t.refunded + t.delivered then t.charged - t.refunded - t.delivered else 0
  }

  /** Tokens all sessions hold, and those taken for one about to start. */
  function HeldTokens(sys: System): nat {
    SumOf(sys.tracks, Unused) + Uncommitted(sys.e.pc)
  }

  lemma {:induction false} HeldIsDifference(ts: seq<Track>)
    requires forall i :: 0 <= i < |ts| ==> ts[i].charged >= ts[i].refunded + ts[i].delivered
    ensures SumOf(ts, ChargedTo) == SumOf(ts, RefundedTo) + SumOf(ts, DeliveredTo) + SumOf(ts, Unused)
    decreases |ts|
  {
    if ts != [] {
      assert ts[0].charged >= ts[0].refunded + ts[0].delivered;
      HeldIsDifference(ts[1..]);
    }
  }

  lemma SpentIs(sys: System)
    requires Inv(sys)
    ensures Spent(sys) == Delivered(sys) + HeldTokens(sys)
  {
    hide TracksOk, SumOf, BucketOk, SlotsOk, PriceOk, OrderOk;
    TracksCover(sys);
    HeldIsDifference(sys.tracks);
  }

  /** Between any two states of a run the servers return at most what the
      sessions held in tokens at the start, one bucketful, and what the rate
      supplies in between. A bucketful is the largest charge any draw can make. */
  lemma WindowCeiling(cfg: RunConfig, sys: System, evs: seq<Event>)
    requires Sane(cfg) && cfg.rate > 0 && Reachable(cfg, sys) && Legal(sys, evs)
    ensures Delivered(After(sys, evs)) as real - Delivered(sys) as real
            <= HeldTokens(sys) as real + BucketCapacity(cfg) as real
               + cfg.rate as real * (After(sys, evs).now - sys.now)
    ensures forall n: nat :: LargestCharge(cfg, n) && !NeverVector(cfg) ==>
              Delivered(After(sys, evs)) as real - Delivered(sys) as real
              <= HeldTokens(sys) as real + n as real + cfg.rate as real * (After(sys, evs).now - sys.now)
  {
    hide Known, Legal, After, Reachable, Level, Delivered, HeldTokens, BucketCapacity, Spent, Inv, LargestCharge;
    ReachableInv(cfg, sys);
    RunAffords(sys, evs);
    RunKeeps(sys, evs);
    var later := After(sys, evs);
    SpentIs(sys);
    SpentIs(later);
    RunConstants(sys, evs);
    LevelBound(cfg, sys);
    LevelBound(cfg, later);
    forall n: nat | LargestCharge(cfg, n) && !NeverVector(cfg)
      ensures n == BucketCapacity(cfg)
    {
      LargestIsCapacity(cfg, n);
    }
  }

  lemma LevelBound(cfg: RunConfig, sys: System)
    requires Inv(sys) && cfg.rate > 0 && sys.cfg == cfg
    ensures 0.0 <= Level(sys) <= BucketCapacity(cfg) as real
  {
    hide TracksOk, SlotsOk, TokensOk, PriceOk, OrderOk, BucketCapacity, Refill;
    RefillValid(sys.e.bucket, sys.now);
    RefillKeeps(sys.e.bucket, sys.now);
  }
}
