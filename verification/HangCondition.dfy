/** Exactly which configurations have a run whose drain hangs. */
module HangConditions {
  import opened Prelude
  import opened TokenBuckets
  import opened SessionSpec
  import opened SessionLedger
  import opened SessionProgress
  import opened EngineSpec
  import opened EngineInvariants
  import opened EngineRuns
  import opened RunConfigs
  import opened Schedulers
  import opened HungDrains
  import opened ReadLists

  /** No session can ever be parked: none is admitted, or every session reads
      all it may with one operation. */
  ghost predicate NeverParks(cfg: RunConfig) {
    !Admits(cfg) || forall d: Draws :: !CanPark(cfg, d)
  }

  ghost predicate OneRead(o: Options) {
    0 < o.maxBytes <= OpBytes(o)
  }

  /** What every state of such a run satisfies. */
  ghost predicate Unparked(sys: System) {
    && (forall id: nat :: id < |sys.tracks| ==> OneRead(sys.tracks[id].s.opts))
    && sys.parking == multiset{} && sys.pushing == multiset{} && sys.e.ready == []
    && !Parked(sys.e.pc)
    && (sys.e.pc.Drawn? || sys.e.pc.Charged? || sys.e.pc.Admitted? ==> OneRead(sys.e.pc.item.session))
    && (!Admits(sys.cfg) ==> sys.e.pc.Top? || sys.e.pc.Sweeping? || sys.e.pc.Drained?)
  }

  predicate Parked(pc: Pc) {
    pc.Popped? || pc.Unfinished? || pc.Priced? || pc.Refused? || pc.Paid?
  }

  /** A session that can read all it may with one operation never parks. */
  lemma OneReadNeverParks(t: Track, h: Handler, places: nat, paid: nat)
    requires Shape(t, places, paid) && Counts(t) && Possible(t, h) && !h.Custodial() && OneRead(t.s.opts)
    ensures !Advance(t, h).1.parked
  {
    hide Shape, Counts, Kinds, OnOpen, OnStat, OnClose, RequestWallTimeout, IssueNextFromEngine, CloseNow;
    hide IssueNext, Handle;
    OwedAfter(t, h, places, paid);
    if h.ReadReply? && !t.s.completed {
      FullReadLeavesNothing(t, h, places, paid);
      EndedReadStays(t, h, places, paid);
    }
    KindsParked(t, h, places, paid);
  }

  lemma KindsParked(t: Track, h: Handler, places: nat, paid: nat)
    requires Shape(t, places, paid) && Possible(t, h) && !h.Custodial()
    ensures Advance(t, h).1.parked ==> h.ReadReply? && !t.s.completed
  {
    hide Shape, Handle, Possible;
    OwedAfter(t, h, places, paid);
  }

  lemma FullReadLeavesNothing(t: Track, h: Handler, places: nat, paid: nat)
    requires Shape(t, places, paid) && Counts(t) && Possible(t, h) && h.ReadReply?
    requires !t.s.completed && OneRead(t.s.opts)
    ensures Counted(t, h.got).remaining == 0
  {
    hide Shape, Fits, Times;
    ReadIdle(t, h, places, paid);
  }

  lemma EndedReadStays(t: Track, h: Handler, places: nat, paid: nat)
    requires Shape(t, places, paid) && Possible(t, h) && h.ReadReply?
    requires !t.s.completed && Counted(t, h.got).remaining == 0
    ensures !Advance(t, h).1.parked
  {
    hide Shape, OnOpen, OnStat, OnClose, RequestWallTimeout, IssueNextFromEngine, CloseNow, IssueNext;
    IssueKinds(Counted(t, h.got), h.accept, h.draws);
  }

  // ---------------------------------------------------------------- every step keeps it

  lemma TouchUnparked(sys: System, id: nat, h: Handler)
    requires Inv(sys) && Unparked(sys) && id < |sys.tracks| && !h.Custodial() && Possible(sys.tracks[id], h)
    ensures Unparked(Touch(sys, id, h))
  {
    hide Shape, Ledger, Counts, Layout, Advance, Possible, OneRead, BucketOk, SlotsOk, TokensOk, PriceOk, PutBack;
    assert TrackOk(sys, id);
    OneReadNeverParks(sys.tracks[id], h, Places(sys, id), PaidTo(sys, id));
    SameOptions(sys.tracks[id], h, Places(sys, id), PaidTo(sys, id));
  }

  lemma SameOptions(t: Track, h: Handler, places: nat, paid: nat)
    requires Shape(t, places, paid) && Possible(t, h) && !h.Custodial()
    ensures Advance(t, h).0.s.opts == t.s.opts
  {
    hide Shape, Handle, Possible;
    AdvanceShape(t, h, places, paid);
  }

  lemma StartUnparked(sys: System, item: WorkItem, accept: bool)
    requires Unparked(sys) && sys.e.pc == Admitted(item)
    ensures Unparked(StartSession(sys, item, accept))
  {
    hide Begin, PutBack, OneRead;
    BeginOptions(item.session, item.opBytes, accept);
  }

  lemma BeginOptions(o: Options, prepaid: nat, accept: bool)
    ensures Begin(o, prepaid, accept).0.s.opts == o
  {
  }

  lemma ItemOneRead(cfg: RunConfig, d: Draws)
    requires Sane(cfg) && !CanPark(cfg, d)
    ensures OneRead(Item(cfg, d).session)
  {
    hide OpBytes, Fits;
    ItemCharge(cfg, d);
  }

  lemma ActUnparked(sys: System, io: Io)
    requires Inv(sys) && Known(sys) && Enabled(sys, EngineAct(io)) && Unparked(sys) && NeverParks(sys.cfg)
    ensures Unparked(EngineStep(sys, io))
  {
    hide Touch, StartSession, Take, Item, OneRead, PayContinuation, CanPark;
    hide TracksOk, BucketOk, TokensOk, PriceOk, OrderOk;
    hide SumOf;
    if sys.e.pc.Slotted? {
      ItemOneRead(sys.cfg, io.pick);
    } else if sys.e.pc.Admitted? {
      StartUnparked(sys, sys.e.pc.item, io.accept);
    }
  }

  lemma StepUnparked(sys: System, ev: Event)
    requires Inv(sys) && Known(sys) && Enabled(sys, ev) && Unparked(sys) && NeverParks(sys.cfg)
    ensures Unparked(Step(sys, ev))
  {
    hide Inv, Touch, EngineStep, TestStop, OneRead, NeverParks, Possible;
    match ev {
      case Callback(id, h) => TouchUnparked(sys, id, h);
      case EngineAct(io) => ActUnparked(sys, io);
      case _ =>
    }
  }

  lemma {:induction false} RunUnparked(sys: System, evs: seq<Event>)
    requires Inv(sys) && Known(sys) && Legal(sys, evs) && Unparked(sys) && NeverParks(sys.cfg)
    ensures Unparked(After(sys, evs))
    decreases |evs|
  {
    hide Inv, Known, Enabled, Step, Unparked, NeverParks;
    if evs != [] {
      StepUnparked(sys, evs[0]);
      EngineSteps.StepKeeps(sys, evs[0]);
      StepConstants(sys, evs[0]);
      RunUnparked(Step(sys, evs[0]), evs[1..]);
    }
  }

  lemma ReachableUnparked(cfg: RunConfig, sys: System)
    requires Sane(cfg) && NeverParks(cfg) && Reachable(cfg, sys)
    ensures Unparked(sys)
  {
    hide Inv, Known, NeverParks, Legal, After;
    var start: real, evs: seq<Event> :| Legal(Initial(cfg, start), evs) && sys == After(Initial(cfg, start), evs);
    InitialInv(cfg, start);
    InvKnown(Initial(cfg, start));
    RunUnparked(Initial(cfg, start), evs);
  }

  /** In such a run nobody is ever stranded. */
  lemma NobodyStranded(sys: System)
    requires Unparked(sys)
    ensures !Drains.SomeStranded(sys)
  {
    hide OneRead;
  }

  // ---------------------------------------------------------------- the condition

  /** The least that one operation of the run's pattern reads. */
  function LeastCharge(cfg: RunConfig): nat {
    OpCharge(cfg, cfg.pattern.Vector? || (cfg.pattern.Mixed? && cfg.vectorFraction >= 1.0))
  }

  /** The configuration admits sessions, and lets one read more than the least
      operation of its pattern. */
  predicate MayHang(cfg: RunConfig) {
    Admits(cfg) && (cfg.maxBytes == 0 || cfg.maxBytes > LeastCharge(cfg))
  }

  lemma EveryChargeIsMore(cfg: RunConfig, d: Draws)
    ensures LeastCharge(cfg) <= Item(cfg, d).opBytes
  {
    Scale(1, Max(1, cfg.vectorChunks), Max(cfg.chunkSize, 1));
  }

  /** A draw of the generator that makes the least charge. */
  function LeastDraw(cfg: RunConfig): Draws {
    Draws(0.0, if 0.0 <= cfg.vectorFraction < 1.0 then cfg.vectorFraction else 0.0)
  }

  lemma LeastIsDrawn(cfg: RunConfig)
    ensures Item(cfg, LeastDraw(cfg)).opBytes == LeastCharge(cfg)
  {
  }

  lemma ParksIff(cfg: RunConfig)
    ensures NeverParks(cfg) <==> !MayHang(cfg)
  {
    hide LeastCharge, Item;
    if MayHang(cfg) {
      LeastIsDrawn(cfg);
      assert CanPark(cfg, LeastDraw(cfg));
    } else {
      forall d: Draws
        ensures !Admits(cfg) || !CanPark(cfg, d)
      {
        EveryChargeIsMore(cfg, d);
      }
    }
  }

  /** Some run of an accepted configuration hangs in its drain if and only if
      sessions are admitted at all and the byte cap, if there is one, is above
      the least operation of the pattern. Otherwise every drain completes,
      whatever happens. */
  lemma DrainHangsIff(cfg: RunConfig)
    requires Accepted(cfg)
    ensures (exists sys :: Hung(cfg, sys)) <==> MayHang(cfg)
    ensures !MayHang(cfg) ==>
              forall sys :: Reachable(cfg, sys) && sys.e.pc.Drained? ==> Drains.AlwaysDrains(sys)
  {
    hide CanPark, Hung, Reachable, Drains.AlwaysDrains, Sane, Item, MayHang;
    ParksIff(cfg);
    if NeverParks(cfg) {
      forall sys | Reachable(cfg, sys) && sys.e.pc.Drained?
        ensures Drains.AlwaysDrains(sys) && !Hung(cfg, sys)
      {
        NotHung(cfg, sys);
      }
      forall sys
        ensures !Hung(cfg, sys)
      {
        HungIs(cfg, sys);
      }
    } else {
      var d: Draws :| CanPark(cfg, d);
      var hung := SomeRunHangs(cfg, d);
    }
  }

  lemma HungIs(cfg: RunConfig, sys: System)
    ensures Hung(cfg, sys) ==> Reachable(cfg, sys) && sys.e.pc.Drained?
  {
    hide Reachable, Drains.Settled, Drains.Stranded;
  }

  lemma NotHung(cfg: RunConfig, sys: System)
    requires Sane(cfg) && NeverParks(cfg) && Reachable(cfg, sys) && sys.e.pc.Drained?
    ensures Drains.AlwaysDrains(sys) && !Hung(cfg, sys)
  {
    hide Inv, Known, Unparked, NeverParks, Reachable, Drains.AlwaysDrains, Drains.Settled, Drains.Stranded;
    ReachableInv(cfg, sys);
    ReachableUnparked(cfg, sys);
    NobodyStranded(sys);
    Drains.DrainCompletesIff(sys);
  }

  /** Such a run, for every draw that lets a session park. */
  lemma SomeRunHangs(cfg: RunConfig, d: Draws) returns (hung: System)
    requires Accepted(cfg) && Admits(cfg) && CanPark(cfg, d)
    ensures Hung(cfg, hung)
  {
    hide Reachable, AboutToTest, Hung, CanPark, Sane;
    var sys := ParkedIsReachable(cfg, d);
    hung := DrainCanHang(cfg, sys, 0);
  }
}
