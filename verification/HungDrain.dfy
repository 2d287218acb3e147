/** A family of runs whose drain never ends: the sweep comes between the stop
    test of a callback thread and its push. */
module HungDrains {
  import opened Prelude
  import opened TokenBuckets
  import opened SessionSpec
  import opened SessionLedger
  import opened EngineSpec
  import opened EngineInvariants
  import opened EngineRuns
  import opened RunConfigs
  import opened Schedulers
  import Drains
  import opened ReadLists

  lemma {:induction false} RunAppend(sys: System, evs: seq<Event>, ev: Event)
    requires Legal(sys, evs) && Known(After(sys, evs)) && Enabled(After(sys, evs), ev)
    ensures Legal(sys, evs + [ev]) && After(sys, evs + [ev]) == Step(After(sys, evs), ev)
    decreases |evs|
  {
    hide Known, Enabled, Step;
    if evs == [] {
      assert ([] + [ev])[0] == ev && ([] + [ev])[1..] == [];
      assert Legal(Step(sys, ev), []);
    } else {
      assert (evs + [ev])[0] == evs[0] && (evs + [ev])[1..] == evs[1..] + [ev];
      RunAppend(Step(sys, evs[0]), evs[1..], ev);
    }
  }

  lemma ReachStep(cfg: RunConfig, sys: System, ev: Event)
    requires Sane(cfg) && Reachable(cfg, sys) && (Known(sys) ==> Enabled(sys, ev))
    ensures Known(sys) && Enabled(sys, ev) && Reachable(cfg, Step(sys, ev))
  {
    hide Known, Enabled, Step, Initial, Inv, Legal, After;
    ReachableInv(cfg, sys);
    var start: real, evs: seq<Event> :| Legal(Initial(cfg, start), evs) && sys == After(Initial(cfg, start), evs);
    RunAppend(Initial(cfg, start), evs, ev);
  }

  lemma {:induction false} ReachRun(cfg: RunConfig, sys: System, evs: seq<Event>)
    requires Sane(cfg) && Reachable(cfg, sys) && Legal(sys, evs)
    ensures Reachable(cfg, After(sys, evs))
    decreases |evs|
  {
    if evs != [] {
      ReachStep(cfg, sys, evs[0]);
      hide Known, Enabled, Step, Reachable;
      ReachRun(cfg, Step(sys, evs[0]), evs[1..]);
    }
  }

  // ---------------------------------------------------------------- from a parked session to a hung drain

  /** The engine is at the top of its loop with nothing to continue, and the
      callback thread of session `id` is about to test the stop flag. */
  ghost predicate AboutToTest(sys: System, id: nat) {
    && sys.e.pc.Top? && sys.e.ready == [] && sys.parking[id] > 0
    && id < |sys.tracks| && !sys.tracks[id].s.completed && sys.tracks[id].owed.Total() == 0
  }

  function Late(): Io {
    Io(true, false, [], Draws(0.0, 0.0))
  }

  lemma TestsFirst(cfg: RunConfig, sys: System, id: nat) returns (tested: System)
    requires Sane(cfg) && Reachable(cfg, sys) && AboutToTest(sys, id)
    ensures Reachable(cfg, tested) && tested.e == sys.e && tested.tracks == sys.tracks && tested.pushing[id] > 0
  {
    hide Reachable, Touch, EngineStep, TracksOk, SlotsOk, BucketOk, TokensOk, PriceOk;
    ReachableInv(cfg, sys);
    ReachStep(cfg, sys, CheckStop(id, false));
    tested := Step(sys, CheckStop(id, false));
  }

  /** The time comes when the deadline has passed. */
  lemma TimePasses(cfg: RunConfig, sys: System) returns (late: System)
    requires Sane(cfg) && Reachable(cfg, sys)
    ensures Reachable(cfg, late) && late.e == sys.e && late.tracks == sys.tracks && late.pushing == sys.pushing
    ensures InTime(late, Late())
  {
    hide Reachable, TracksOk, SlotsOk, TokensOk, PriceOk;
    var dt := if cfg.duration <= 0.0 then 0.0 else cfg.duration;
    ReachableInv(cfg, sys);
    ReachStep(cfg, sys, Tick(dt));
    late := Step(sys, Tick(dt));
  }

  lemma SweepsNext(cfg: RunConfig, tested: System) returns (swept: System)
    requires Sane(cfg) && Reachable(cfg, tested) && tested.e.pc.Top? && tested.e.ready == []
    ensures Reachable(cfg, swept) && swept.e.pc.Drained?
    ensures swept.tracks == tested.tracks && swept.pushing == tested.pushing
  {
    hide Reachable, Touch, StartSession, PayContinuation, PayAdmission, Item;
    var late := TimePasses(cfg, tested);
    ReachStep(cfg, late, EngineAct(Late()));
    var sweeping := Step(late, EngineAct(Late()));
    ReachStep(cfg, sweeping, EngineAct(Late()));
    swept := Step(sweeping, EngineAct(Late()));
  }

  lemma TestThenSweep(cfg: RunConfig, sys: System, id: nat) returns (swept: System)
    requires Sane(cfg) && Reachable(cfg, sys) && AboutToTest(sys, id)
    ensures Reachable(cfg, swept) && swept.e.pc.Drained? && Drains.Stranded(swept, id)
  {
    hide Reachable;
    var tested := TestsFirst(cfg, sys, id);
    swept := SweepsNext(cfg, tested);
  }

  /** A reachable standstill: nothing that is bound to happen is left, yet a
      session is open that nobody will close, not even the watchdog. */
  ghost predicate Hung(cfg: RunConfig, sys: System) {
    && Reachable(cfg, sys) && sys.e.pc.Drained? && Drains.Settled(sys) && sys.e.live > 0
    && exists id: nat :: Drains.Stranded(sys, id) && !sys.tracks[id].entry
  }

  /** A stranded session has no entry in the deadline table. */
  lemma StrandedUnarmed(sys: System, id: nat)
    requires Inv(sys) && Drains.Stranded(sys, id)
    ensures !sys.tracks[id].entry
  {
    hide Ledger, Counts, Layout, Phases, Endings, BucketOk, SlotsOk, TokensOk, PriceOk;
    assert TrackOk(sys, id);
  }

  /** From there the run can reach a standstill in which the engine still waits
      for a session that nobody will close. */
  lemma DrainCanHang(cfg: RunConfig, sys: System, id: nat) returns (hung: System)
    requires Sane(cfg) && Reachable(cfg, sys) && AboutToTest(sys, id)
    ensures Hung(cfg, hung)
  {
    hide Reachable, Inv, Known, AboutToTest, Drains.Settled, Drains.Stranded, Legal, After, Drains.Measure;
    var swept := TestThenSweep(cfg, sys, id);
    ReachableInv(cfg, swept);
    var evs := Drains.StandsStill(swept, id);
    ReachRun(cfg, swept, evs);
    hung := After(swept, evs);
    Drains.DrainBound(swept, evs);
    ReachableInv(cfg, hung);
    Drains.StrandedLives(hung, id);
    StrandedUnarmed(hung, id);
  }

  // ---------------------------------------------------------------- such a state is reachable

  /** The program accepts the configuration as it is. */
  ghost predicate Accepted(cfg: RunConfig) {
    Sane(cfg) && Resolved(cfg) == Ok(cfg)
  }

  /** Some session of the run has more to read than one operation takes, so
      that it parks between its reads. */
  ghost predicate CanPark(cfg: RunConfig, d: Draws) {
    cfg.maxBytes == 0 || cfg.maxBytes > Item(cfg, d).opBytes
  }

  /** The run lasts, and at least one session fits in it. */
  predicate Admits(cfg: RunConfig) {
    cfg.maxInflight > 0 && cfg.duration > 0.0
  }

  function Early(d: Draws): Io {
    Io(false, true, [], d)
  }

  lemma Act(cfg: RunConfig, sys: System, d: Draws, next: System)
    requires Sane(cfg) && Reachable(cfg, sys) && !sys.e.pc.Sweeping?
    requires HoldsSession(sys) ==> next == EngineStep(sys, Early(d))
    requires cfg.duration > 0.0
    ensures Reachable(cfg, next)
  {
    hide Inv, Reachable, EngineStep;
    ReachableInv(cfg, sys);
    ReachStep(cfg, sys, EngineAct(Early(d)));
  }

  lemma OneSlotted(cfg: RunConfig, d: Draws) returns (sys: System)
    requires Sane(cfg) && Admits(cfg)
    ensures Reachable(cfg, sys)
    ensures sys == Initial(cfg, 0.0).(e := Initial(cfg, 0.0).e.(slots := 1, pc := Slotted))
  {
    hide Reachable, Full, Item, PayContinuation, PayAdmission, Touch, StartSession, Sane;
    FirstIsReachable(cfg);
    var s0 := Initial(cfg, 0.0);
    var s1 := At(s0, Seeking);
    Act(cfg, s0, d, s1);
    var s2 := At(s0, Wanting);
    Act(cfg, s1, d, s2);
    sys := s0.(e := s0.e.(slots := 1, pc := Slotted));
    Act(cfg, s2, d, sys);
  }

  lemma FirstIsReachable(cfg: RunConfig)
    ensures Reachable(cfg, Initial(cfg, 0.0))
  {
    var s0 := Initial(cfg, 0.0);
    assert Legal(s0, []) && After(s0, []) == s0;
  }

  /** A full bucket pays for the first session at once. */
  lemma FullPays(cfg: RunConfig, d: Draws, now: real)
    requires Sane(cfg)
    ensures Take(Full(cfg.rate, BucketCapacity(cfg), now), Item(cfg, d).opBytes, now).1
  {
    ItemCharge(cfg, d);
  }

  lemma OneAdmitted(cfg: RunConfig, d: Draws) returns (sys: System)
    requires Sane(cfg) && Admits(cfg)
    ensures Reachable(cfg, sys)
    ensures sys.e.pc == Admitted(Item(cfg, d)) && !sys.e.stop && sys.e.ready == [] && sys.tracks == []
  {
    hide Reachable, Full, Item, PayContinuation, Touch, StartSession, Sane, Take;
    var s3 := OneSlotted(cfg, d);
    var item := Item(cfg, d);
    FullPays(cfg, d, 0.0);
    var s4 := At(s3, Drawn(item));
    Act(cfg, s3, d, s4);
    var bucket := Take(s3.e.bucket, item.opBytes, 0.0).0;
    var s5 := s3.(e := s3.e.(bucket := bucket, pc := Charged(item)), acquired := s3.acquired + item.opBytes);
    Act(cfg, s4, d, s5);
    sys := s5.(e := s5.e.(live := s5.e.live + 1, pc := Admitted(item)), admitted := s5.admitted + 1);
    Act(cfg, s5, d, sys);
  }

  /** The engine idles while the only session runs. */
  ghost predicate OnlySession(sys: System, t: Track) {
    sys.e.pc.Top? && sys.e.ready == [] && sys.tracks == [t]
  }

  lemma Hear(cfg: RunConfig, sys: System, t: Track, h: Handler) returns (next: System)
    requires Sane(cfg) && Reachable(cfg, sys) && OnlySession(sys, t) && h.Reply() && Possible(t, h)
    ensures Reachable(cfg, next) && OnlySession(next, Advance(t, h).0)
    ensures Advance(t, h).1.parked ==> next.parking[0] > 0
  {
    hide Reachable, Advance, Possible, PutBack, EngineStep, Sane;
    ReachStep(cfg, sys, Callback(0, h));
    next := Step(sys, Callback(0, h));
  }

  /** The file the session reads: one byte longer than its first read. */
  function Size(o: Options): nat {
    OpBytes(o) + 1
  }

  ghost predicate Parks(o: Options) {
    Fits(o) && o.offset == 0 && (o.maxBytes == 0 || o.maxBytes > OpBytes(o))
  }

  /** A session that opened its file, did one full read and wants to park. */
  lemma ParkingTrack(o: Options, prepaid: nat)
    requires Parks(o)
    ensures var t0 := Begin(o, prepaid, true).0;
            && Possible(t0, OpenReply(true, true))
            && var t1 := Advance(t0, OpenReply(true, true)).0;
            && Possible(t1, StatReply(true, Size(o), true, []))
            && var t2 := Advance(t1, StatReply(true, Size(o), true, [])).0;
            && t2.s.opts == o && AboutToPark(t2, ReadReply(true, OpBytes(o), true, []))
  {
    hide Advance, Begin, OpBytes, Fits;
    ParkingOpen(o, prepaid);
    var t1 := Advance(Begin(o, prepaid, true).0, OpenReply(true, true)).0;
    ParkingStat(t1);
    ParkingRead(Advance(t1, StatReply(true, Size(o), true, [])).0);
  }

  lemma OpenSent(o: Options, prepaid: nat)
    ensures var t0 := Begin(o, prepaid, true).0;
            && t0.owed == Owed(1, 0, 0, 0) && !t0.s.completed && !t0.s.timedOut && t0.s.paced && t0.s.pending == 1
            && t0.s.opts == o
  {
  }

  lemma OpenHeard(t: Track)
    requires t.owed == Owed(1, 0, 0, 0) && !t.s.completed && !t.s.timedOut && t.s.paced && t.s.pending == 1
    ensures Possible(t, OpenReply(true, true))
    ensures var u := Advance(t, OpenReply(true, true)).0;
            && u.owed == Owed(0, 1, 0, 0) && !u.s.completed && !u.s.timedOut && u.s.paced && u.s.pending == 1
            && u.s.opts == t.s.opts
  {
    hide OnStat, OnRead, OnClose, RequestWallTimeout, IssueNextFromEngine, CloseNow;
    hide Finish, Fail, SubmitClose, Swallowed;
    hide PlannedBytes, DropPrepaid, Prepaid;
  }

  lemma ParkingOpen(o: Options, prepaid: nat)
    ensures var t0 := Begin(o, prepaid, true).0;
            && Possible(t0, OpenReply(true, true))
            && var t1 := Advance(t0, OpenReply(true, true)).0;
            && t1.owed == Owed(0, 1, 0, 0) && !t1.s.completed && !t1.s.timedOut && t1.s.paced && t1.s.pending == 1
            && t1.s.opts == o
  {
    hide Begin, Advance, Possible;
    OpenSent(o, prepaid);
    OpenHeard(Begin(o, prepaid, true).0);
  }

  /** Stat tells a plan one byte larger than the operation, so the first read is full. */
  lemma ParkingPlan(s: Session)
    requires Parks(s.opts)
    ensures Plannable(s.opts, Size(s.opts)) && OpBytes(s.opts) > 0
    ensures var p := Planned(s, Size(s.opts));
            && p.remaining == Size(s.opts) && p.opts == s.opts && TotalLen(ReadList(p, [])) == OpBytes(s.opts)
  {
    hide OpBytes, FullOpBytes, Fits, ReadList, TotalLen;
    FitsOpBytes(s.opts);
    ReadTotal(Planned(s, Size(s.opts)), []);
  }

  lemma ParkingStat(t: Track)
    requires Parks(t.s.opts)
    requires t.owed == Owed(0, 1, 0, 0) && !t.s.completed && !t.s.timedOut && t.s.paced && t.s.pending == 1
    ensures Possible(t, StatReply(true, Size(t.s.opts), true, []))
    ensures var u := Advance(t, StatReply(true, Size(t.s.opts), true, [])).0;
            && u.owed == Owed(0, 0, 1, 0) && !u.s.completed && u.s.paced && u.s.pending == 1 && u.s.opts == t.s.opts
            && u.s.requested == OpBytes(t.s.opts) > 0 && u.s.remaining == Size(t.s.opts)
            && !u.s.timedOut && (u.s.opts.deadline ==> u.entry)
  {
    hide OnStat, ReadList, TotalLen, Size, PlannedBytes, Parks, OnOpen, OnRead, OnClose, RequestWallTimeout;
    SizeFits(t.s.opts);
    ParkingPlan(t.s);
    StatIssues(t.s, Size(t.s.opts), true, []);
  }

  lemma SizeFits(o: Options)
    requires Parks(o)
    ensures Size(o) < WORD64 && OpBytes(o) < Size(o) && Fits(o)
  {
    FitsOpBytes(o);
  }

  lemma OneByteLeft(t: Track)
    requires t.s.requested == OpBytes(t.s.opts) && t.s.remaining == Size(t.s.opts)
    ensures var u := Counted(t, OpBytes(t.s.opts));
            u.remaining == 1 && u.completed == t.s.completed && u.timedOut == t.s.timedOut
  {
    hide OpBytes;
  }

  lemma ParkingRead(t: Track)
    requires !t.s.completed && t.s.paced && t.s.pending == 1 && t.owed == Owed(0, 0, 1, 0)
    requires Parks(t.s.opts) && t.s.requested == OpBytes(t.s.opts) && t.s.remaining == Size(t.s.opts)
    ensures var h := ReadReply(true, OpBytes(t.s.opts), true, []);
            && Possible(t, h) && Advance(t, h).1.parked
            && !Advance(t, h).0.s.completed && Advance(t, h).0.owed.Total() == 0
            && Advance(t, h).0.s.timedOut == t.s.timedOut
  {
    hide IssueNext, OpBytes, Parks, OnOpen, OnStat, OnRead, OnClose, RequestWallTimeout, Shortfall, Counted, Size;
    OneByteLeft(t);
    ReadParks(t, ReadReply(true, OpBytes(t.s.opts), true, []));
  }

  lemma ItemParks(cfg: RunConfig, d: Draws)
    requires Sane(cfg) && CanPark(cfg, d)
    ensures Parks(Item(cfg, d).session)
  {
    hide OpBytes, Fits;
    ItemCharge(cfg, d);
  }

  lemma OneStarted(cfg: RunConfig, d: Draws) returns (sys: System)
    requires Sane(cfg) && Admits(cfg)
    ensures Reachable(cfg, sys) && OnlySession(sys, Begin(Item(cfg, d).session, Item(cfg, d).opBytes, true).0)
  {
    hide Reachable, Begin, PutBack, Item, Sane, PayContinuation, PayAdmission, Touch;
    var announced := OneAdmitted(cfg, d);
    var item := Item(cfg, d);
    sys := StartSession(announced, item, true);
    Act(cfg, announced, d, sys);
    assert [] + [Begin(item.session, item.opBytes, true).0] == [Begin(item.session, item.opBytes, true).0];
  }

  /** A session that is about to hear of its first, full read, and will park. */
  ghost predicate AboutToPark(t: Track, h: Handler) {
    && !t.s.completed && !t.s.timedOut && (t.s.opts.deadline ==> t.entry)
    && h.ReadReply? && Possible(t, h)
    && var (u, fx) := Advance(t, h);
       fx.parked && !u.s.completed && !u.s.timedOut && u.owed.Total() == 0
  }

  lemma ReadingIsReachable(cfg: RunConfig, d: Draws) returns (sys: System, t: Track, h: Handler)
    requires Sane(cfg) && Admits(cfg) && CanPark(cfg, d)
    ensures Reachable(cfg, sys) && OnlySession(sys, t) && AboutToPark(t, h) && t.s.opts == Item(cfg, d).session
  {
    hide Reachable, Advance, Begin, Possible, Item, Sane, OpBytes, Parks, CanPark;
    var o, prepaid := Item(cfg, d).session, Item(cfg, d).opBytes;
    ItemParks(cfg, d);
    sys := OneStarted(cfg, d);
    ParkingTrack(o, prepaid);
    t := Begin(o, prepaid, true).0;
    h := OpenReply(true, true);
    sys := Hear(cfg, sys, t, h);
    t := Advance(t, h).0;
    h := StatReply(true, Size(o), true, []);
    sys := Hear(cfg, sys, t, h);
    t := Advance(t, h).0;
    h := ReadReply(true, OpBytes(o), true, []);
  }

  lemma ParkedIsReachable(cfg: RunConfig, d: Draws) returns (sys: System)
    requires Sane(cfg) && Admits(cfg) && CanPark(cfg, d)
    ensures Reachable(cfg, sys) && AboutToTest(sys, 0)
  {
    hide Reachable, Advance, Possible, Sane, CanPark;
    var before, t, h := ReadingIsReachable(cfg, d);
    sys := Hear(cfg, before, t, h);
  }
}
