/** Every step of every thread keeps the invariant of a run. */
module EngineSteps {
  import opened TokenBuckets
  import opened RunConfigs
  import opened Schedulers
  import opened SessionSpec
  import opened SessionLedger
  import opened EngineSpec
  import opened EngineInvariants

  // ---------------------------------------------------------------- common shapes of a step

  /** A step that leaves every session and its custody alone. */
  ghost predicate SameCustody(sys: System, next: System) {
    && next.tracks == sys.tracks && next.cfg == sys.cfg && next.e.bucket.capacity == sys.e.bucket.capacity
    && (forall id: nat :: Places(next, id) == Places(sys, id))
    && (forall id: nat :: PaidTo(next, id) == PaidTo(sys, id))
  }

  lemma SameCustodyTracks(sys: System, next: System)
    requires TracksOk(sys) && SameCustody(sys, next)
    ensures TracksOk(next)
  {
    hide Places, PaidTo, TrackOk;
    forall id: nat | id < |next.tracks|
      ensures TrackOk(next, id)
    {
      assert Places(next, id) == Places(sys, id) && PaidTo(next, id) == PaidTo(sys, id);
      assert TrackOk(sys, id);
      TrackElsewhere(sys, next, id);
    }
    forall id: nat | id >= |next.tracks|
      ensures Places(next, id) == 0
    {
      assert Places(next, id) == Places(sys, id);
    }
  }

  /** A session that a custodian holds has exactly that custodian. */
  lemma OneCustodian(sys: System, id: nat)
    requires TracksOk(sys) && Places(sys, id) > 0
    ensures id < |sys.tracks| && Places(sys, id) == 1
    ensures Holds(sys.e.pc, id) ==> sys.parking[id] == 0 && sys.pushing[id] == 0 && multiset(sys.e.ready)[id] == 0
    ensures !Holds(sys.e.pc, id) ==> PaidTo(sys, id) == 0
  {
    assert TrackOk(sys, id);
    hide Ledger, Counts, Layout, Phases, Endings;
  }

  /** A custodian lets go of session `id` and runs a handler on it. */
  lemma LetGo(sys: System, mid: System, id: nat, h: Handler)
    requires TracksOk(sys) && TokensOk(mid) && SlotsOk(mid) && BucketOk(mid)
    requires mid.tracks == sys.tracks && mid.cfg == sys.cfg && mid.e.bucket.capacity == sys.e.bucket.capacity
    requires h.Custodial() && Places(sys, id) == 1 && Places(mid, id) == 0 && PaidTo(mid, id) == 0
    requires h.EngineIssue? ==> h.charge == PaidTo(sys, id) > 0
    requires h.EngineClose? ==> PaidTo(sys, id) == 0
    requires forall j: nat :: j != id ==> Places(mid, j) == Places(sys, j) && PaidTo(mid, j) == PaidTo(sys, j)
    ensures id < |mid.tracks| && TracksOk(Touch(mid, id, h))
    ensures TokensOk(Touch(mid, id, h)) && SlotsOk(Touch(mid, id, h)) && BucketOk(Touch(mid, id, h))
  {
    assert id < |sys.tracks|;
    assert TrackOk(sys, id);
    TrackIsSession(sys, id);
    hide Places, PaidTo, TrackOk, SlotsOk, TokensOk, BucketOk, SessionOk;
    SessionElsewhere(sys, mid, mid.tracks[id], Places(sys, id), PaidTo(sys, id));
    forall j: nat | j < |mid.tracks| && j != id
      ensures TrackOk(mid, j)
    {
      assert TrackOk(sys, j);
      TrackElsewhere(sys, mid, j);
    }
    forall j: nat | j >= |mid.tracks|
      ensures Places(mid, j) == 0
    {
      assert Places(sys, j) == 0;
    }
    assert BeforeTouch(mid, id, h, Places(sys, id), PaidTo(sys, id));
    TouchTracks(mid, id, h, Places(sys, id), PaidTo(sys, id));
    TouchCounts(mid, id, h, Places(sys, id), PaidTo(sys, id));
  }

  lemma SessionElsewhere(sys: System, mid: System, t: Track, places: nat, paid: nat)
    requires SessionOk(sys, t, places, paid) && mid.cfg == sys.cfg && mid.e.bucket.capacity == sys.e.bucket.capacity
    ensures SessionOk(mid, t, places, paid)
  {
    hide Shape, Ledger, Counts, Layout;
  }

  /** What a handler leaves alone. */
  lemma TouchRest(mid: System, id: nat, h: Handler)
    requires id < |mid.tracks| && Possible(mid.tracks[id], h) && OrderOk(mid) && Sane(mid.cfg)
    ensures OrderOk(Touch(mid, id, h)) && Sane(Touch(mid, id, h).cfg) && Touch(mid, id, h).e.pc == mid.e.pc
    ensures mid.e.stop ==> PriceOk(Touch(mid, id, h))
  {
    hide Advance, Possible, PutBack;
  }

  // ---------------------------------------------------------------- callbacks and the watchdog

  lemma CallbackKeeps(sys: System, id: nat, h: Handler)
    requires Inv(sys) && Known(sys) && Enabled(sys, Callback(id, h))
    ensures Inv(Touch(sys, id, h))
  {
    assert TrackOk(sys, id);
    TrackIsSession(sys, id);
    var next := Touch(sys, id, h);
    assert BeforeTouch(sys, id, h, Places(sys, id), PaidTo(sys, id)) by {
      hide SessionOk, Shape, Ledger, Counts, Layout, SlotsOk, TokensOk, BucketOk;
    }
    TouchTracks(sys, id, h, Places(sys, id), PaidTo(sys, id));
    TouchCounts(sys, id, h, Places(sys, id), PaidTo(sys, id));
    CallbackPrice(sys, id, h);
    hide TracksOk, SlotsOk, TokensOk, BucketOk, PriceOk, Advance;
    assert OrderOk(next);
  }

  lemma CallbackPrice(sys: System, id: nat, h: Handler)
    requires TracksOk(sys) && PriceOk(sys) && id < |sys.tracks| && !h.Custodial() && Possible(sys.tracks[id], h)
    ensures PriceOk(Touch(sys, id, h))
  {
    TouchOnlyAt(sys, id, h);
    if sys.e.pc.Priced? && sys.e.pc.id == id {
      OneCustodian(sys, id);
      assert TrackOk(sys, id);
      ParkedPriceStays(sys.tracks[id], h, Places(sys, id), PaidTo(sys, id));
    }
    assert Touch(sys, id, h).e.pc == sys.e.pc;
    hide Advance, Possible, TrackOk, Places, NextOpBytes, Touch, PriceOk;
    PriceUnchanged(sys, Touch(sys, id, h)) by {
      assert sys.e.pc.Priced? ==> sys.e.pc.id < |sys.tracks| by { PricedKnown(sys); }
    }
  }

  lemma PricedKnown(sys: System)
    requires PriceOk(sys)
    ensures sys.e.pc.Priced? ==> sys.e.pc.id < |sys.tracks|
  {
    hide NextOpBytes, OpBytes, ReadLists.Fits;
  }

  lemma CheckStopKeeps(sys: System, id: nat, accept: bool)
    requires Inv(sys) && Known(sys) && sys.parking[id] > 0
    ensures Inv(TestStop(sys, id, accept))
  {
    hide Touch, OpBytes, SumOf;
    OneCustodian(sys, id);
    var leaving := sys.(parking := sys.parking - multiset{id});
    if sys.e.stop {
      assert Places(leaving, id) == 0;
      BucketUnchanged(sys, leaving);
      assert SlotsOk(leaving) && TokensOk(leaving) by {
        hide TracksOk, BucketOk;
      }
      LeavingElsewhere(sys, leaving, id);
      hide Places, PaidTo, TracksOk, SlotsOk, TokensOk, BucketOk;
      LetGo(sys, leaving, id, EngineClose(accept));
      hide Touch;
      TouchRest(leaving, id, EngineClose(accept));
    } else {
      var next := TestStop(sys, id, accept);
      SameCustodyTracks(sys, next);
      BucketUnchanged(sys, next);
      OrderSame(sys, next);
      hide TracksOk, BucketOk, OrderOk;
    }
  }

  lemma LeavingElsewhere(sys: System, leaving: System, id: nat)
    requires leaving == sys.(parking := sys.parking - multiset{id})
    ensures forall j: nat :: j != id ==> Places(leaving, j) == Places(sys, j) && PaidTo(leaving, j) == PaidTo(sys, j)
  {
  }

  lemma PushKeeps(sys: System, id: nat)
    requires Inv(sys) && Known(sys) && Enabled(sys, Push(id))
    ensures Inv(PushReady(sys, id))
  {
    var next := PushReady(sys, id);
    assert OrderOk(next) by {
      hide TracksOk, BucketOk, SlotsOk, TokensOk;
      assert next.parkLog == next.disposed + HeldNow(next.e.pc) + next.e.ready;
    }
    PushPlaces(sys, id);
    SameCustodyTracks(sys, next);
    BucketUnchanged(sys, next);
    hide TracksOk, BucketOk, OrderOk;
  }

  lemma PushPlaces(sys: System, id: nat)
    requires sys.pushing[id] > 0
    ensures SameCustody(sys, PushReady(sys, id))
  {
    assert multiset(PushReady(sys, id).e.ready) == multiset(sys.e.ready) + multiset{id};
  }

  // ---------------------------------------------------------------- the tail of session_done, and time

  lemma LiveDownKeeps(sys: System)
    requires Inv(sys) && Known(sys) && Enabled(sys, LiveDown)
    ensures Inv(Step(sys, LiveDown))
  {
    hide BucketOk, PriceOk, SumOf;
    var next := Step(sys, LiveDown);
    SameCustodyTracks(sys, next);
    hide TracksOk;
    BucketUnchanged(sys, next);
    OrderSame(sys, next);
    hide OrderOk;
    PriceUnchanged(sys, next);
  }

  /** The semaphore is never released at zero. */
  lemma ReleaseKeeps(sys: System)
    requires Inv(sys) && Known(sys) && Enabled(sys, ReleaseSlot)
    ensures sys.e.slots > 0 && Inv(Step(sys, ReleaseSlot))
  {
    hide BucketOk, PriceOk, SumOf;
    var next := Step(sys, ReleaseSlot);
    SameCustodyTracks(sys, next);
    hide TracksOk;
    BucketUnchanged(sys, next);
    OrderSame(sys, next);
    hide OrderOk;
    PriceUnchanged(sys, next);
  }

  lemma TickKeeps(sys: System, dt: real)
    requires Inv(sys) && Known(sys) && dt >= 0.0
    ensures Inv(Step(sys, Tick(dt)))
  {
    var next := Step(sys, Tick(dt));
    SameCustodyTracks(sys, next);
    TickBucket(sys, dt);
    OrderSame(sys, next);
    PriceUnchanged(sys, next);
    hide TracksOk, BucketOk, OrderOk, PriceOk, SumOf;
  }

  lemma TickBucket(sys: System, dt: real)
    requires BucketOk(sys) && dt >= 0.0
    ensures BucketOk(sys.(now := sys.now + dt))
  {
  }

  // ---------------------------------------------------------------- the engine thread

  lemma PopPlaces(sys: System, next: System)
    requires |sys.e.ready| > 0 && sys.e.pc.Top?
    requires next == sys.(e := sys.e.(pc := Popped(sys.e.ready[0]), ready := sys.e.ready[1..]))
    ensures SameCustody(sys, next)
    ensures OrderOk(sys) ==> OrderOk(next)
  {
    assert sys.e.ready == [sys.e.ready[0]] + next.e.ready;
    assert multiset(sys.e.ready) == multiset{sys.e.ready[0]} + multiset(next.e.ready);
    assert sys.disposed + [] + sys.e.ready == sys.disposed + [sys.e.ready[0]] + next.e.ready;
  }

  lemma PopKeeps(sys: System, io: Io)
    requires Inv(sys) && Known(sys) && sys.e.pc.Top?
    ensures Inv(EngineStep(sys, io))
  {
    hide TracksOk, BucketOk, SlotsOk, TokensOk, OrderOk, SameCustody;
    hide Touch, PayContinuation, PayAdmission, StartSession;
    var next := EngineStep(sys, io);
    BucketUnchanged(sys, next);
    if !io.deadlinePassed && |sys.e.ready| > 0 {
      PopPlaces(sys, next);
    } else {
      PopRest(sys, io);
    }
    SameCustodyTracks(sys, next);
    PopBooks(sys, io);
  }

  lemma PopRest(sys: System, io: Io)
    requires sys.e.pc.Top? && Known(sys) && OrderOk(sys) && !(!io.deadlinePassed && |sys.e.ready| > 0)
    ensures OrderOk(EngineStep(sys, io)) && SameCustody(sys, EngineStep(sys, io))
  {
    hide Touch, PayContinuation, PayAdmission, StartSession;
  }

  lemma PopBooks(sys: System, io: Io)
    requires sys.e.pc.Top? && Known(sys) && SlotsOk(sys) && TokensOk(sys)
    ensures SlotsOk(EngineStep(sys, io)) && TokensOk(EngineStep(sys, io))
  {
    hide SumOf;
  }

  /** The size of the next read of a parked session is positive and fits the bucket. */
  lemma ParkedPrice(sys: System, id: nat)
    requires TracksOk(sys) && Holds(sys.e.pc, id)
    ensures id < |sys.tracks| && NextOpBytes(sys.tracks[id].s) > 0
    ensures sys.cfg.rate > 0 ==> NextOpBytes(sys.tracks[id].s) <= sys.e.bucket.capacity
  {
    OneCustodian(sys, id);
    assert TrackOk(sys, id);
    ReadLists.FitsOpBytes(sys.tracks[id].s.opts);
    hide OpBytes, FullOpBytes, Ledger, Counts, Layout, Endings;
  }

  lemma DisposeOrder(sys: System, id: nat)
    requires OrderOk(sys) && HeldNow(sys.e.pc) == [id]
    ensures OrderOk(Dispose(sys, id))
  {
    assert sys.disposed + [id] + sys.e.ready == (sys.disposed + [id]) + [] + sys.e.ready;
  }

  lemma DisposePlaces(sys: System, id: nat)
    requires TracksOk(sys) && Holds(sys.e.pc, id)
    ensures Places(Dispose(sys, id), id) == 0 && PaidTo(Dispose(sys, id), id) == 0
    ensures forall j: nat :: j != id ==>
              Places(Dispose(sys, id), j) == Places(sys, j) && PaidTo(Dispose(sys, id), j) == PaidTo(sys, j)
  {
    OneCustodian(sys, id);
    hide TracksOk;
  }

  lemma PoppedKeeps(sys: System, io: Io)
    requires Inv(sys) && Known(sys) && sys.e.pc.Popped?
    ensures Inv(EngineStep(sys, io))
  {
    hide TracksOk, BucketOk, OrderOk, Touch, StartSession, Take, Item, NextOpBytes;
    hide PayContinuation, PayAdmission, SumOf;
    var id, next := sys.e.pc.id, EngineStep(sys, io);
    OneCustodian(sys, id);
    if sys.tracks[id].s.completed {
      DisposePlaces(sys, id);
      DisposeOrder(sys, id);
      DisposedTracks(sys, id);
    } else {
      SameCustodyTracks(sys, next);
      OrderSame(sys, next);
    }
    BucketUnchanged(sys, next);
  }

  /** A completed session may lose its custodian. */
  lemma DisposedTracks(sys: System, id: nat)
    requires TracksOk(sys) && Holds(sys.e.pc, id) && !sys.e.pc.Paid? && id < |sys.tracks| && sys.tracks[id].s.completed
    ensures TracksOk(Dispose(sys, id))
  {
    DisposePlaces(sys, id);
    OneCustodian(sys, id);
    assert TrackOk(sys, id);
    assert SessionOk(sys, sys.tracks[id], 0, 0) by {
      hide Ledger, Counts, Layout, OpBytes, ReadLists.Fits;
    }
    hide Places, PaidTo, SessionOk;
    TracksExcept(sys, Dispose(sys, id), id);
  }

  lemma OrderSame(sys: System, next: System)
    requires OrderOk(sys) && next.parkLog == sys.parkLog && next.disposed == sys.disposed && next.e.ready == sys.e.ready
    requires HeldNow(next.e.pc) == HeldNow(sys.e.pc) && next.e.stop == sys.e.stop
    requires (next.e.pc.Sweeping? || next.e.pc.Drained?) <==> (sys.e.pc.Sweeping? || sys.e.pc.Drained?)
    ensures OrderOk(next)
  {
  }

  lemma UnfinishedKeeps(sys: System, io: Io)
    requires Inv(sys) && Known(sys) && sys.e.pc.Unfinished?
    ensures Inv(EngineStep(sys, io))
  {
    hide TracksOk, BucketOk, OrderOk, NextOpBytes, Touch, PayContinuation, PayAdmission, StartSession, SumOf;
    var next := EngineStep(sys, io);
    assert Holds(sys.e.pc, sys.e.pc.id);
    ParkedPrice(sys, sys.e.pc.id);
    SameCustodyTracks(sys, next);
    OrderSame(sys, next);
    BucketUnchanged(sys, next);
  }

  lemma PricedIs(sys: System, io: Io)
    requires Known(sys) && sys.e.pc.Priced? && sys.e.pc.n > 0 && sys.e.pc.id < |sys.tracks|
    ensures EngineStep(sys, io) == PayContinuation(sys, sys.e.pc.id, sys.e.pc.n)
  {
    hide Touch, PayContinuation, PayAdmission, StartSession;
  }

  lemma PayRest(sys: System, id: nat, n: nat)
    requires OrderOk(sys) && sys.e.pc == Priced(id, n) && id < |sys.tracks| && n > 0
    ensures OrderOk(PayContinuation(sys, id, n)) && PriceOk(PayContinuation(sys, id, n))
  {
    hide Take;
  }

  lemma PricedKeeps(sys: System, io: Io)
    requires Inv(sys) && Known(sys) && sys.e.pc.Priced?
    ensures Inv(EngineStep(sys, io))
  {
    hide TracksOk, BucketOk, OrderOk, TokensOk, SlotsOk, EngineStep, Take, NextOpBytes;
    var id, n := sys.e.pc.id, sys.e.pc.n;
    var next := PayContinuation(sys, id, n);
    PricedIs(sys, io);
    TakeBucket(sys, n);
    PayTracks(sys, id, n);
    PayTokens(sys, id, n);
    PayRest(sys, id, n);
    assert BucketOk(next) by {
      var (b, taken) := Take(sys.e.bucket, n, sys.now);
      BucketUnchanged(sys.(e := sys.e.(bucket := b), acquired := sys.acquired + (if taken then n else 0)), next);
    }
  }

  /** The session's account after the engine paid for its next read. */
  lemma PaySession(sys: System, t: Track, n: nat)
    requires SessionOk(sys, t, 1, 0) && n == NextOpBytes(t.s)
    ensures SessionOk(sys, t.(charged := t.charged + n), 1, n)
  {
    hide Callbacks, Endings, OpBytes, FullOpBytes, ReadLists.Fits, TotalLen, Times, NextOpBytes, PlannedBytes;
  }

  lemma PayOnlyAt(sys: System, id: nat, n: nat)
    requires sys.e.pc == Priced(id, n) && id < |sys.tracks|
    requires var (b, taken) := Take(sys.e.bucket, n, sys.now); taken && b.capacity == sys.e.bucket.capacity
    ensures var next := PayContinuation(sys, id, n);
            && OnlyAt(sys, next, id) && next.tracks[id] == sys.tracks[id].(charged := sys.tracks[id].charged + n)
            && Places(next, id) == Places(sys, id) && PaidTo(next, id) == n
  {
    hide Take;
  }

  lemma PayTracks(sys: System, id: nat, n: nat)
    requires TracksOk(sys) && sys.e.pc == Priced(id, n) && id < |sys.tracks| && n == NextOpBytes(sys.tracks[id].s) > 0
    requires Take(sys.e.bucket, n, sys.now).0.capacity == sys.e.bucket.capacity
    ensures TracksOk(PayContinuation(sys, id, n))
  {
    var next := PayContinuation(sys, id, n);
    if !Take(sys.e.bucket, n, sys.now).1 {
      hide Take;
      SameCustodyTracks(sys, next);
    } else {
      assert Holds(sys.e.pc, id);
      OneCustodian(sys, id);
      assert TrackOk(sys, id);
      TrackIsSession(sys, id);
      assert PaidTo(sys, id) == 0;
      PayOnlyAt(sys, id, n);
      hide Take, PayContinuation, SessionOk, Places, PaidTo;
      PaySession(sys, sys.tracks[id], n);
      TracksExcept(sys, next, id);
    }
  }

  lemma PayTokens(sys: System, id: nat, n: nat)
    requires id < |sys.tracks| && sys.e.pc == Priced(id, n) && TokensOk(sys) && SlotsOk(sys)
    ensures TokensOk(PayContinuation(sys, id, n)) && SlotsOk(PayContinuation(sys, id, n))
  {
    hide Take, SumOf;
    var t := sys.tracks[id].(charged := sys.tracks[id].charged + n);
    SumUpdate(sys.tracks, id, t, ChargedTo);
    SumUpdate(sys.tracks, id, t, RefundedTo);
    SumUpdate(sys.tracks, id, t, OpenOne);
    SumUpdate(sys.tracks, id, t, OkOne);
    SumUpdate(sys.tracks, id, t, OkBytes);
  }

  lemma RefusedIs(sys: System, io: Io)
    requires Known(sys) && sys.e.pc.Refused?
    ensures EngineStep(sys, io) == sys.(e := sys.e.(pc := Top, ready := [sys.e.pc.id] + sys.e.ready))
  {
    hide Touch, PayContinuation, PayAdmission, StartSession;
  }

  lemma RefusedRest(sys: System, next: System)
    requires SlotsOk(sys) && TokensOk(sys) && OrderOk(sys) && sys.e.pc.Refused?
    requires next == sys.(e := sys.e.(pc := Top, ready := [sys.e.pc.id] + sys.e.ready))
    ensures SlotsOk(next) && TokensOk(next) && PriceOk(next) && OrderOk(next) && SameCustody(sys, next)
  {
    hide SumOf;
    assert multiset(next.e.ready) == multiset{sys.e.pc.id} + multiset(sys.e.ready);
    assert next.parkLog == next.disposed + HeldNow(next.e.pc) + next.e.ready;
  }

  lemma RefusedKeeps(sys: System, io: Io)
    requires Inv(sys) && Known(sys) && sys.e.pc.Refused?
    ensures Inv(EngineStep(sys, io))
  {
    hide TracksOk, BucketOk, SlotsOk, TokensOk, PriceOk, OrderOk, SameCustody, EngineStep;
    var next := EngineStep(sys, io);
    RefusedIs(sys, io);
    RefusedRest(sys, next);
    SameCustodyTracks(sys, next);
    BucketUnchanged(sys, next);
  }

  lemma PaidIs(sys: System, io: Io)
    requires Known(sys) && sys.e.pc.Paid? && sys.e.pc.id < |sys.tracks|
    ensures var h := EngineIssue(sys.e.pc.n, io.accept, io.draws);
            && Possible(Dispose(sys, sys.e.pc.id).tracks[sys.e.pc.id], h)
            && EngineStep(sys, io) == Touch(Dispose(sys, sys.e.pc.id), sys.e.pc.id, h)
  {
    hide Touch, PayContinuation, PayAdmission, StartSession;
  }

  lemma PaidBooks(sys: System, id: nat)
    requires sys.e.pc.Paid? && TokensOk(sys) && SlotsOk(sys) && PriceOk(sys)
    ensures TokensOk(Dispose(sys, id)) && SlotsOk(Dispose(sys, id)) && PriceOk(Dispose(sys, id))
  {
    hide SumOf;
  }

  lemma PaidKeeps(sys: System, io: Io)
    requires Inv(sys) && Known(sys) && sys.e.pc.Paid?
    ensures Inv(EngineStep(sys, io))
  {
    var id, n := sys.e.pc.id, sys.e.pc.n;
    var h := EngineIssue(n, io.accept, io.draws);
    assert Holds(sys.e.pc, id) && n > 0 && PaidTo(sys, id) == n;
    hide TracksOk, SlotsOk, TokensOk, BucketOk, OrderOk, PriceOk, Touch, Places, PaidTo, EngineStep;
    OneCustodian(sys, id) by {
      HeldPlaces(sys, id);
    }
    DisposePlaces(sys, id);
    DisposeOrder(sys, id);
    PaidBooks(sys, id);
    PaidIs(sys, io);
    var mid := Dispose(sys, id);
    BucketUnchanged(sys, mid);
    LetGo(sys, mid, id, h);
    TouchRest(mid, id, h);
    assert PriceOk(Touch(mid, id, h)) by {
      TopPrice(Touch(mid, id, h));
    }
  }

  lemma HeldPlaces(sys: System, id: nat)
    requires Holds(sys.e.pc, id)
    ensures Places(sys, id) > 0
  {
  }

  lemma TopPrice(sys: System)
    requires sys.e.pc.Top?
    ensures PriceOk(sys)
  {
  }

  /** The steps of an admission up to the payment. */
  lemma AdmissionIs(sys: System, io: Io)
    requires Known(sys) && (sys.e.pc.Seeking? || sys.e.pc.Wanting? || sys.e.pc.Slotted? || sys.e.pc.GivingBack?)
    ensures var next := EngineStep(sys, io);
            && next == sys.(e := sys.e.(pc := next.e.pc, slots := next.e.slots))
            && Uncommitted(next.e.pc) == 0 == Uncommitted(sys.e.pc)
            && Announced(next.e.pc) == 0 == Announced(sys.e.pc)
            && HeldNow(next.e.pc) == [] == HeldNow(sys.e.pc) && !next.e.pc.Sweeping? && !next.e.pc.Drained?
            && (sys.e.slots > 0 || !sys.e.pc.GivingBack? ==>
                  next.e.slots - EngineSlot(next.e.pc) == sys.e.slots - EngineSlot(sys.e.pc))
            && (next.e.slots <= sys.e.slots || next.e.slots <= sys.e.max)
  {
    hide Touch, PayContinuation, PayAdmission, StartSession;
  }

  lemma AdmissionKeeps(sys: System, io: Io)
    requires Inv(sys) && Known(sys)
    requires sys.e.pc.Seeking? || sys.e.pc.Wanting? || sys.e.pc.Slotted? || sys.e.pc.GivingBack?
    ensures Inv(EngineStep(sys, io))
  {
    var next := EngineStep(sys, io);
    AdmissionPrice(sys, io);
    AdmissionIs(sys, io);
    hide EngineStep, PriceOk, SumOf, BucketOk;
    BucketUnchanged(sys, next);
    assert SlotsOk(next) && TokensOk(next) by {
      hide TracksOk, OrderOk;
    }
    hide SlotsOk, TokensOk;
    OrderSame(sys, next);
    hide OrderOk;
    SameCustodyTracks(sys, next);
    hide TracksOk;
  }

  lemma AdmissionPrice(sys: System, io: Io)
    requires Known(sys) && Sane(sys.cfg) && BucketOk(sys)
    requires sys.e.pc.Seeking? || sys.e.pc.Wanting? || sys.e.pc.Slotted? || sys.e.pc.GivingBack?
    ensures PriceOk(EngineStep(sys, io))
  {
    hide Touch, PayContinuation, PayAdmission, StartSession;
    ItemCharge(sys.cfg, io.pick);
    hide Item, OpBytes, BucketCapacity, ReadLists.Fits;
  }

  lemma DrawnIs(sys: System, io: Io)
    requires Known(sys) && sys.e.pc.Drawn?
    ensures EngineStep(sys, io) == PayAdmission(sys, sys.e.pc.item)
  {
    hide Touch, PayContinuation, PayAdmission, StartSession;
  }

  /** Custody, books and price after the engine asked for the tokens of a new session. */
  lemma PayAdmissionRest(sys: System)
    requires SlotsOk(sys) && TokensOk(sys) && PriceOk(sys) && OrderOk(sys) && sys.e.pc.Drawn? && Sane(sys.cfg)
    ensures var next := PayAdmission(sys, sys.e.pc.item);
            && SlotsOk(next) && TokensOk(next) && PriceOk(next) && OrderOk(next) && SameCustody(sys, next)
  {
    hide Supply, SumOf, ReadLists.Fits, OpBytes, NextOpBytes;
  }

  lemma DrawnKeeps(sys: System, io: Io)
    requires Inv(sys) && Known(sys) && sys.e.pc.Drawn?
    ensures Inv(EngineStep(sys, io))
  {
    hide TracksOk, BucketOk, SlotsOk, TokensOk, PriceOk, OrderOk, SameCustody, EngineStep, Take;
    var item := sys.e.pc.item;
    DrawnIs(sys, io);
    PayAdmissionRest(sys);
    var next := PayAdmission(sys, item);
    SameCustodyTracks(sys, next);
    assert BucketOk(next) by {
      var (b, taken) := Take(sys.e.bucket, item.opBytes, sys.now);
      TakeBucket(sys, item.opBytes);
      var acquired := sys.acquired + (if taken then item.opBytes else 0);
      BucketUnchanged(sys.(e := sys.e.(bucket := b), acquired := acquired), next);
    }
  }

  lemma ChargedKeeps(sys: System, io: Io)
    requires Inv(sys) && Known(sys) && sys.e.pc.Charged?
    ensures Inv(EngineStep(sys, io))
  {
    hide TracksOk, BucketOk, OrderOk, OpBytes, ReadLists.Fits, SumOf;
    hide Touch, PayContinuation, PayAdmission, StartSession;
    var next := EngineStep(sys, io);
    SameCustodyTracks(sys, next);
    OrderSame(sys, next);
    BucketUnchanged(sys, next);
  }

  lemma StartOnlyAt(sys: System, item: WorkItem, accept: bool)
    requires sys.e.pc == Admitted(item)
    ensures var next, k := StartSession(sys, item, accept), |sys.tracks|;
            && OnlyAt(sys, next, k) && next.tracks[k] == Begin(item.session, item.opBytes, accept).0
            && Places(next, k) == Places(sys, k) && PaidTo(next, k) == 0
  {
    hide Begin;
  }

  lemma StartedSessionOk(sys: System, item: WorkItem, accept: bool)
    requires ReadLists.Fits(item.session) && item.opBytes == OpBytes(item.session)
    requires sys.cfg.rate > 0 ==> item.opBytes <= sys.e.bucket.capacity
    ensures SessionOk(sys, Begin(item.session, item.opBytes, accept).0, 0, 0)
  {
    hide Begin, Shape, Ledger, Counts, Layout, OpBytes, FullOpBytes, ReadLists.Fits;
    BeginShape(item.session, item.opBytes, accept);
    BeginLedger(item.session, item.opBytes, accept);
    BeginTiles(item.session, item.opBytes, accept);
  }

  lemma StartTracks(sys: System, item: WorkItem, accept: bool)
    requires TracksOk(sys) && sys.e.pc == Admitted(item)
    requires ReadLists.Fits(item.session) && item.opBytes == OpBytes(item.session)
    requires sys.cfg.rate > 0 ==> item.opBytes <= sys.e.bucket.capacity
    ensures TracksOk(StartSession(sys, item, accept))
  {
    hide StartSession, Begin, Places, PaidTo, OpBytes, FullOpBytes, SessionOk, TrackOk, ReadLists.Fits, OnlyAt;
    var k := |sys.tracks|;
    assert Places(sys, k) == 0;
    StartOnlyAt(sys, item, accept);
    StartedSessionOk(sys, item, accept);
    TracksExcept(sys, StartSession(sys, item, accept), k);
  }

  /** A session that fails to start reports nothing read. */
  lemma BeginReport(opts: Options, prepaid: nat, accept: bool)
    ensures var (t, fx) := Begin(opts, prepaid, accept);
            && t.charged == prepaid && t.refunded == fx.refunded && !t.s.result.ok
            && (t.s.completed <==> fx.done.Some?) && (fx.done.Some? ==> !fx.done.value.ok)
  {
  }

  lemma StartSlots(sys: System, item: WorkItem, accept: bool)
    requires TokensOk(sys) && SlotsOk(sys) && sys.e.pc == Admitted(item)
    ensures TokensOk(StartSession(sys, item, accept)) && SlotsOk(StartSession(sys, item, accept))
  {
    var t := Begin(item.session, item.opBytes, accept).0;
    BeginReport(item.session, item.opBytes, accept);
    hide Begin, PutBack;
    SumAppend(sys.tracks, t, ChargedTo);
    SumAppend(sys.tracks, t, RefundedTo);
    SumAppend(sys.tracks, t, OpenOne);
    SumAppend(sys.tracks, t, OkOne);
    SumAppend(sys.tracks, t, OkBytes);
    hide SumOf;
  }

  lemma StartBooks(sys: System, item: WorkItem, accept: bool)
    requires TokensOk(sys) && SlotsOk(sys) && BucketOk(sys) && sys.e.pc == Admitted(item)
    ensures var next := StartSession(sys, item, accept); TokensOk(next) && SlotsOk(next) && BucketOk(next)
  {
    StartSlots(sys, item, accept);
    var fx := Begin(item.session, item.opBytes, accept).1;
    RefundBucket(sys, fx.refunded);
    hide BucketOk, TokensOk, SlotsOk, Begin, PutBack;
    BucketUnchanged(GiveBackTokens(sys, fx.refunded), StartSession(sys, item, accept));
  }

  lemma StartKeeps(sys: System, io: Io)
    requires Inv(sys) && Known(sys) && sys.e.pc.Admitted?
    ensures Inv(EngineStep(sys, io))
  {
    hide TokensOk, SlotsOk, BucketOk, OpBytes, Begin, PutBack, Take, Touch;
    var item := sys.e.pc.item;
    StartTracks(sys, item, io.accept);
    StartBooks(sys, item, io.accept);
    hide TracksOk, TokensOk, SlotsOk, BucketOk, OpBytes, Begin, PutBack;
  }

  /** The sweep takes the first parked session. */
  function Swept(sys: System): System
    requires |sys.e.ready| > 0
  {
    sys.(e := sys.e.(ready := sys.e.ready[1..]), disposed := sys.disposed + [sys.e.ready[0]])
  }

  lemma SweptPlaces(sys: System)
    requires TracksOk(sys) && sys.e.pc.Sweeping? && |sys.e.ready| > 0
    ensures var id := sys.e.ready[0];
            && Places(sys, id) == 1 && Places(Swept(sys), id) == 0 && PaidTo(sys, id) == 0 == PaidTo(Swept(sys), id)
            && (forall j: nat :: j != id ==>
                  Places(Swept(sys), j) == Places(sys, j) && PaidTo(Swept(sys), j) == PaidTo(sys, j))
  {
    var id := sys.e.ready[0];
    assert sys.e.ready == [id] + Swept(sys).e.ready;
    assert multiset(sys.e.ready) == multiset{id} + multiset(Swept(sys).e.ready);
    assert Places(sys, id) > 0;
    OneCustodian(sys, id);
    hide TracksOk;
  }

  lemma SweptBooks(sys: System)
    requires |sys.e.ready| > 0 && TokensOk(sys) && SlotsOk(sys) && OrderOk(sys) && sys.e.pc.Sweeping?
    ensures TokensOk(Swept(sys)) && SlotsOk(Swept(sys)) && OrderOk(Swept(sys))
  {
    hide SumOf;
    assert Swept(sys).disposed + [] + Swept(sys).e.ready == sys.disposed + [] + sys.e.ready;
  }

  lemma SweepIs(sys: System, io: Io)
    requires Known(sys) && sys.e.pc.Sweeping? && |sys.e.ready| > 0
    ensures Possible(Swept(sys).tracks[sys.e.ready[0]], EngineClose(io.accept))
    ensures EngineStep(sys, io) == Touch(Swept(sys), sys.e.ready[0], EngineClose(io.accept))
  {
    hide Touch, PayContinuation, PayAdmission, StartSession;
  }

  lemma SweepKeeps(sys: System, io: Io)
    requires Inv(sys) && Known(sys) && sys.e.pc.Sweeping?
    ensures Inv(EngineStep(sys, io))
  {
    if |sys.e.ready| == 0 {
      var next := EngineStep(sys, io);
      SameCustodyTracks(sys, next);
      OrderSame(sys, next);
      BucketUnchanged(sys, next);
      hide TracksOk, BucketOk, OrderOk;
    } else {
      var id, mid := sys.e.ready[0], Swept(sys);
      SweepIs(sys, io);
      SweptPlaces(sys);
      SweptBooks(sys);
      BucketUnchanged(sys, mid);
      hide EngineStep, Places, PaidTo, TracksOk, TokensOk, SlotsOk, BucketOk, OrderOk, Touch;
      LetGo(sys, mid, id, EngineClose(io.accept));
      TouchRest(mid, id, EngineClose(io.accept));
    }
  }

  lemma EngineKeeps(sys: System, io: Io)
    requires Inv(sys) && Known(sys)
    ensures Inv(EngineStep(sys, io))
  {
    hide Inv;
    match sys.e.pc
    case Top => PopKeeps(sys, io);
    case Popped(_) => PoppedKeeps(sys, io);
    case Unfinished(_) => UnfinishedKeeps(sys, io);
    case Priced(_, _) => PricedStep(sys, io);
    case Refused(_) => RefusedKeeps(sys, io);
    case Paid(_, _) => PaidKeeps(sys, io);
    case Seeking => AdmissionKeeps(sys, io);
    case Wanting => AdmissionKeeps(sys, io);
    case Slotted => AdmissionKeeps(sys, io);
    case Drawn(_) => DrawnKeeps(sys, io);
    case GivingBack => AdmissionKeeps(sys, io);
    case Charged(_) => ChargedKeeps(sys, io);
    case Admitted(_) => StartKeeps(sys, io);
    case Sweeping => SweepKeeps(sys, io);
    case Drained =>
  }

  lemma PricedStep(sys: System, io: Io)
    requires Inv(sys) && Known(sys) && sys.e.pc.Priced?
    ensures Inv(EngineStep(sys, io))
  {
    assert sys.e.pc.n > 0;
    PricedKeeps(sys, io);
  }

  /** One step of any thread keeps the invariant. */
  lemma StepKeeps(sys: System, ev: Event)
    requires Inv(sys) && Known(sys) && Enabled(sys, ev)
    ensures Inv(Step(sys, ev)) && Known(Step(sys, ev))
  {
    match ev {
      case Tick(dt) => TickKeeps(sys, dt);
      case Callback(id, h) => CallbackKeeps(sys, id, h);
      case CheckStop(id, accept) => CheckStopKeeps(sys, id, accept);
      case Push(id) => PushKeeps(sys, id);
      case LiveDown => LiveDownKeeps(sys);
      case ReleaseSlot => ReleaseKeeps(sys);
      case EngineAct(io) => EngineKeeps(sys, io);
    }
    var next := Step(sys, ev);
    hide Step, Known, Enabled;
    InvKnown(next);
  }
}
