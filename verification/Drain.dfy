/** The end of a run: the engine has closed what was parked and waits for the
    live counter to reach zero. When it does, how fast, and exactly when a
    session is left behind. */
module Drains {
  import opened TokenBuckets
  import opened SessionLedger
  import opened SessionProgress
  import opened EngineSpec
  import opened EngineInvariants
  import opened EngineSteps
  import opened EngineRuns

  /** Steps that some thread or XrdCl is bound to take: deliveries, the way
      through on_ready, and the tail of session_done. The watchdog is not. */
  predicate Productive(ev: Event) {
    match ev
    case Callback(_, h) => h.Reply()
    case CheckStop(_, _) => true
    case Push(_) => true
    case LiveDown => true
    case ReleaseSlot => true
    case _ => false
  }

  /** Nothing bound to happen is left. */
  ghost predicate Settled(sys: System) {
    && (forall id: nat :: id < |sys.tracks| ==> sys.tracks[id].owed.Total() == 0)
    && sys.parking == multiset{} && sys.pushing == multiset{} && sys.observing == 0 && sys.releasing == 0
  }

  /** A live session whose callback thread passed the stop test before the stop
      and whose push comes after the sweep, with no Close on its way. */
  ghost predicate Stranded(sys: System, id: nat) {
    && id < |sys.tracks| && !sys.tracks[id].s.completed && sys.tracks[id].owed.Total() == 0
    && (sys.pushing[id] > 0 || multiset(sys.e.ready)[id] > 0)
  }

  ghost predicate SomeStranded(sys: System) {
    exists id: nat :: Stranded(sys, id)
  }

  // ---------------------------------------------------------------- the measure

  function Measure(sys: System): nat {
    SumOf(sys.tracks, Weight) + 2 * sys.observing + sys.releasing + |sys.parking| + |sys.pushing|
  }

  lemma TouchMeasure(mid: System, id: nat, h: Handler)
    requires id < |mid.tracks| && Possible(mid.tracks[id], h)
    ensures var (t', fx) := Advance(mid.tracks[id], h);
            (Measure(Touch(mid, id, h)) + Weight(mid.tracks[id])
               == Measure(mid) + Weight(t') + 2 * One(fx.done.Some?) + One(fx.parked))
  {
    var (t', fx) := Advance(mid.tracks[id], h);
    hide Advance, Possible, Weight;
    SumUpdate(mid.tracks, id, t', Weight);
    hide SumOf;
  }

  lemma MultisetShrinks(m: multiset<nat>, id: nat)
    requires m[id] > 0
    ensures |m - multiset{id}| == |m| - 1
  {
    assert m == (m - multiset{id}) + multiset{id};
  }

  lemma CallbackMeasure(sys: System, id: nat, h: Handler)
    requires TracksOk(sys) && id < |sys.tracks| && !h.Custodial() && Possible(sys.tracks[id], h)
    ensures Measure(Touch(sys, id, h)) <= Measure(sys)
    ensures h.Reply() ==> Measure(Touch(sys, id, h)) < Measure(sys)
  {
    assert TrackOk(sys, id);
    TouchMeasure(sys, id, h);
    hide TracksOk, Places, PaidTo, Shape, Advance, Touch, Possible, Ledger, Counts, Layout;
    if h.Reply() {
      ReplyProgress(sys.tracks[id], h, Places(sys, id), PaidTo(sys, id));
    } else {
      AskProgress(sys.tracks[id], h, Places(sys, id), PaidTo(sys, id));
    }
    hide Measure, Weight, TrackOk;
  }

  lemma CheckStopMeasure(sys: System, id: nat, accept: bool)
    requires TracksOk(sys) && Known(sys) && sys.parking[id] > 0 && sys.e.stop
    ensures Measure(TestStop(sys, id, accept)) < Measure(sys)
  {
    OneCustodian(sys, id);
    assert TrackOk(sys, id);
    var leaving := sys.(parking := sys.parking - multiset{id});
    var h := EngineClose(accept);
    TouchMeasure(leaving, id, h);
    MultisetShrinks(sys.parking, id);
    assert Places(sys, id) == 1 && PaidTo(sys, id) == 0;
    assert Measure(leaving) < Measure(sys);
    hide TracksOk, Places, PaidTo, Shape, Advance, Touch, Possible, Measure, Weight, Ledger, Counts, Layout;
    AskProgress(sys.tracks[id], h, Places(sys, id), PaidTo(sys, id));
  }

  /** The engine thread does nothing more once the sweep is over. */
  lemma EngineRests(sys: System, io: Io)
    requires Known(sys) && sys.e.pc.Drained?
    ensures Step(sys, EngineAct(io)) == sys
  {
    hide Touch, PayContinuation, PayAdmission, StartSession, Dispose;
  }

  /** While draining no step adds work, and every productive step removes some. */
  lemma DrainStep(sys: System, ev: Event)
    requires Inv(sys) && Known(sys) && Enabled(sys, ev) && sys.e.pc.Drained?
    ensures var next := Step(sys, ev);
            && next.e.pc.Drained? && |next.tracks| == |sys.tracks|
            && Measure(next) <= Measure(sys) && (Productive(ev) ==> Measure(next) < Measure(sys))
  {
    hide Touch, Advance, TracksOk, BucketOk, SlotsOk, TokensOk, PriceOk, SumOf, EngineStep;
    match ev {
      case Callback(id, h) =>
        CallbackMeasure(sys, id, h);
        TouchOnlyAt(sys, id, h);
        TouchPc(sys, id, h);
      case CheckStop(id, accept) =>
        CheckStopMeasure(sys, id, accept);
        var leaving := sys.(parking := sys.parking - multiset{id});
        TouchOnlyAt(leaving, id, EngineClose(accept));
        TouchPc(leaving, id, EngineClose(accept));
      case Push(id) =>
        MultisetShrinks(sys.pushing, id);
      case EngineAct(io) => EngineRests(sys, io);
      case _ =>
    }
  }

  lemma TouchPc(mid: System, id: nat, h: Handler)
    requires id < |mid.tracks| && Possible(mid.tracks[id], h)
    ensures Touch(mid, id, h).e.pc == mid.e.pc && |Touch(mid, id, h).tracks| == |mid.tracks|
  {
    hide Advance, Possible, PutBack;
  }

  function CountProductive(evs: seq<Event>): nat {
    if evs == [] then 0 else One(Productive(evs[0])) + CountProductive(evs[1..])
  }

  /** A drain takes at most as many productive steps as the measure allows. */
  lemma {:induction false} DrainBound(sys: System, evs: seq<Event>)
    requires Inv(sys) && Known(sys) && sys.e.pc.Drained? && Legal(sys, evs)
    ensures After(sys, evs).e.pc.Drained? && |After(sys, evs).tracks| == |sys.tracks|
    ensures CountProductive(evs) + Measure(After(sys, evs)) <= Measure(sys)
    decreases |evs|
  {
    if evs != [] {
      DrainStep(sys, evs[0]);
      StepKeeps(sys, evs[0]);
      hide Inv, Known, Enabled, Step, Measure, Productive;
      DrainBound(Step(sys, evs[0]), evs[1..]);
    }
  }

  // ---------------------------------------------------------------- four more callbacks

  /** Deliveries to session `id` before it completes. */
  ghost function Deliveries(sys: System, evs: seq<Event>, id: nat): nat
    requires Legal(sys, evs)
    decreases |evs|
  {
    if evs == [] then 0
    else
      One(evs[0].Callback? && evs[0].id == id && evs[0].h.Reply() && id < |sys.tracks| && !sys.tracks[id].s.completed)
      + Deliveries(Step(sys, evs[0]), evs[1..], id)
  }

  lemma TouchPhase(sys: System, mid: System, j: nat, h: Handler, id: nat)
    requires TracksOk(sys) && mid.tracks == sys.tracks && id < |sys.tracks| && j < |sys.tracks|
    requires Possible(sys.tracks[j], h) && Lawful(h, Places(sys, j), PaidTo(sys, j)) && !h.EngineIssue?
    ensures id < |Touch(mid, j, h).tracks|
    ensures Phase(Touch(mid, j, h).tracks[id]) + One(j == id && h.Reply() && !sys.tracks[id].s.completed)
            <= Phase(sys.tracks[id])
  {
    assert TrackOk(sys, j);
    TouchOnlyAt(mid, j, h);
    hide Touch, Advance, Possible, Places, PaidTo, Shape, Phase, TracksOk, Ledger, Counts, Layout;
    if j == id && h.Reply() {
      ReplyProgress(sys.tracks[j], h, Places(sys, j), PaidTo(sys, j));
    } else if j == id {
      AskProgress(sys.tracks[j], h, Places(sys, j), PaidTo(sys, j));
    }
  }

  lemma DrainPhase(sys: System, ev: Event, id: nat)
    requires Inv(sys) && Known(sys) && Enabled(sys, ev) && sys.e.pc.Drained? && id < |sys.tracks|
    ensures id < |Step(sys, ev).tracks|
    ensures Phase(Step(sys, ev).tracks[id])
            + One(ev.Callback? && ev.id == id && ev.h.Reply() && !sys.tracks[id].s.completed) <= Phase(sys.tracks[id])
  {
    hide TracksOk, BucketOk, SlotsOk, TokensOk, PriceOk, Touch, Phase, PaidTo, EngineStep;
    match ev {
      case Callback(j, h) => TouchPhase(sys, sys, j, h, id);
      case CheckStop(j, accept) =>
        OneCustodian(sys, j);
        TouchPhase(sys, sys.(parking := sys.parking - multiset{j}), j, EngineClose(accept), id);
      case EngineAct(io) => EngineRests(sys, io);
      case _ =>
    }
  }

  /** While draining, every session completes after at most four more deliveries. */
  lemma {:induction false} FourMoreDeliveries(sys: System, evs: seq<Event>, id: nat)
    requires Inv(sys) && Known(sys) && sys.e.pc.Drained? && Legal(sys, evs) && id < |sys.tracks|
    ensures id < |After(sys, evs).tracks|
    ensures Deliveries(sys, evs, id) + Phase(After(sys, evs).tracks[id]) <= Phase(sys.tracks[id]) <= 4
    decreases |evs|
  {
    if evs != [] {
      DrainPhase(sys, evs[0], id);
      DrainStep(sys, evs[0]);
      StepKeeps(sys, evs[0]);
      hide Inv, Known, Enabled, Step, Measure, Productive, Phase;
      FourMoreDeliveries(Step(sys, evs[0]), evs[1..], id);
    }
  }

  // ---------------------------------------------------------------- stranded sessions

  lemma StrandedBeforeCallback(sys: System, j: nat, h: Handler, id: nat)
    requires TracksOk(sys) && j < |sys.tracks| && !h.Custodial() && Possible(sys.tracks[j], h)
    requires Stranded(Touch(sys, j, h), id)
    ensures Stranded(sys, id)
  {
    TouchOnlyAt(sys, j, h);
    TouchQueues(sys, j, h);
    if j == id {
      assert TrackOk(sys, id);
      assert Places(sys, id) > 0;
      OneCustodian(sys, id);
      hide Touch, Advance, Possible, TracksOk, Ledger, Counts, Layout, Endings, Places, PaidTo;
      OwedAfter(sys.tracks[id], h, Places(sys, id), PaidTo(sys, id));
    }
    hide Touch, Advance, Possible, TracksOk, Shape;
  }

  lemma StrandedBeforeCheck(sys: System, j: nat, accept: bool, id: nat)
    requires TracksOk(sys) && Known(sys) && sys.parking[j] > 0 && sys.e.stop
    requires Stranded(TestStop(sys, j, accept), id)
    ensures Stranded(sys, id)
  {
    OneCustodian(sys, j);
    var leaving := sys.(parking := sys.parking - multiset{j});
    TouchOnlyAt(leaving, j, EngineClose(accept));
    TouchQueues(leaving, j, EngineClose(accept));
    hide Touch, Advance, Possible, TracksOk;
  }

  lemma StrandedBefore(sys: System, ev: Event, id: nat)
    requires Inv(sys) && Known(sys) && Enabled(sys, ev) && sys.e.pc.Drained? && Stranded(Step(sys, ev), id)
    ensures Stranded(sys, id)
  {
    hide Touch, TracksOk, BucketOk, SlotsOk, TokensOk, PriceOk, EngineStep, Possible, Stranded;
    match ev {
      case Callback(j, h) => StrandedBeforeCallback(sys, j, h, id);
      case CheckStop(j, accept) =>
        StrandedBeforeCheck(sys, j, accept, id);
      case Push(j) =>
        assert multiset(Step(sys, ev).e.ready) == multiset(sys.e.ready) + multiset{j};
        StrandedBeforeMove(sys, Step(sys, ev), id);
      case EngineAct(io) => EngineRests(sys, io);
      case _ => StrandedBeforeMove(sys, Step(sys, ev), id);
    }
  }

  /** Only the session's record, the pushes on their way and the queue matter. */
  lemma StrandedBeforeMove(sys: System, next: System, id: nat)
    requires next.tracks == sys.tracks && Stranded(next, id)
    requires next.pushing[id] + multiset(next.e.ready)[id] <= sys.pushing[id] + multiset(sys.e.ready)[id]
    ensures Stranded(sys, id)
  {
  }

  lemma TouchQueues(mid: System, id: nat, h: Handler)
    requires id < |mid.tracks| && Possible(mid.tracks[id], h)
    ensures Touch(mid, id, h).pushing == mid.pushing && Touch(mid, id, h).e.ready == mid.e.ready
  {
    hide Advance, Possible, PutBack;
  }

  lemma {:induction false} NeverStranded(sys: System, evs: seq<Event>)
    requires Inv(sys) && Known(sys) && sys.e.pc.Drained? && Legal(sys, evs) && !SomeStranded(sys)
    ensures !SomeStranded(After(sys, evs))
    decreases |evs|
  {
    if evs != [] {
      var next := Step(sys, evs[0]);
      if SomeStranded(next) {
        var id: nat :| Stranded(next, id);
        StrandedBefore(sys, evs[0], id);
        assert false;
      }
      DrainStep(sys, evs[0]);
      StepKeeps(sys, evs[0]);
      hide Inv, Known, Enabled, Step, SomeStranded;
      NeverStranded(next, evs[1..]);
    }
  }

  /** When nothing more is bound to happen and no session was stranded, every
      session is completed and every slot is free. */
  lemma SettledIsDone(sys: System)
    requires Inv(sys) && sys.e.pc.Drained? && Settled(sys) && !SomeStranded(sys)
    ensures sys.e.live == 0 && sys.e.slots == 0
    ensures forall id: nat :: id < |sys.tracks| ==> sys.tracks[id].s.completed && !sys.tracks[id].s.held
  {
    forall id: nat | id < |sys.tracks|
      ensures sys.tracks[id].s.completed && !sys.tracks[id].s.held
    {
      assert TrackOk(sys, id);
      assert !Stranded(sys, id);
      hide Ledger, Counts, Layout, Phases, Endings;
    }
    SumZero(sys.tracks, OpenOne);
  }

  // ---------------------------------------------------------------- the drain runs its course

  /** A reply XrdCl may deliver for a callback it owes. */
  function SomeReply(o: Owed): Handler {
    if o.open > 0 then OpenReply(false, false)
    else if o.stat > 0 then StatReply(false, 0, false, [])
    else if o.read > 0 then ReadReply(false, 0, false, [])
    else CloseReply(false)
  }

  lemma ReplyPossible(t: Track)
    requires t.owed.Total() > 0
    ensures SomeReply(t.owed).Reply() && Possible(t, SomeReply(t.owed))
  {
  }

  /** Until a drain has settled, something bound to happen can happen. */
  lemma StillMoves(sys: System) returns (ev: Event)
    requires Inv(sys) && Known(sys) && sys.e.pc.Drained? && !Settled(sys)
    ensures Enabled(sys, ev) && Productive(ev)
  {
    hide Inv, SomeReply, Possible;
    if j: nat :| j < |sys.tracks| && sys.tracks[j].owed.Total() > 0 {
      ReplyPossible(sys.tracks[j]);
      ev := Callback(j, SomeReply(sys.tracks[j].owed));
    } else if sys.parking != multiset{} {
      var j: nat :| j in sys.parking;
      ev := CheckStop(j, false);
    } else if sys.pushing != multiset{} {
      var j: nat :| j in sys.pushing;
      ev := Push(j);
    } else if sys.observing > 0 {
      ev := LiveDown;
    } else {
      ev := ReleaseSlot;
    }
  }

  ghost predicate AllProductive(evs: seq<Event>) {
    forall i :: 0 <= i < |evs| ==> Productive(evs[i])
  }

  /** Every drain can settle, within as many steps as its measure. */
  lemma {:induction false} RunsOut(sys: System) returns (evs: seq<Event>)
    requires Inv(sys) && Known(sys) && sys.e.pc.Drained?
    ensures Legal(sys, evs) && AllProductive(evs) && |evs| <= Measure(sys) && Settled(After(sys, evs))
    decreases Measure(sys)
  {
    hide Inv, Known, Enabled, Step, Measure, Productive, Settled;
    evs := [];
    if !Settled(sys) {
      var ev := StillMoves(sys);
      DrainStep(sys, ev);
      StepKeeps(sys, ev);
      var rest := RunsOut(Step(sys, ev));
      evs := [ev] + rest;
      assert evs[0] == ev && evs[1..] == rest;
    }
  }

  /** Unless a session is stranded, a drain never gets stuck and does not go on
      for ever: until it has settled something bound to happen can happen, at
      most as often as the measure says, and once it has settled live is 0, no
      slot is held and every session is completed. */
  lemma DrainCompletes(sys: System, evs: seq<Event>)
    requires Inv(sys) && Known(sys) && sys.e.pc.Drained? && !SomeStranded(sys) && Legal(sys, evs)
    ensures CountProductive(evs) + Measure(After(sys, evs)) <= Measure(sys)
    ensures !Settled(After(sys, evs)) ==> exists ev :: Enabled(After(sys, evs), ev) && Productive(ev)
    ensures Settled(After(sys, evs)) ==> After(sys, evs).e.live == 0 && After(sys, evs).e.slots == 0
    ensures Settled(After(sys, evs)) ==>
              forall id: nat :: id < |After(sys, evs).tracks| ==> After(sys, evs).tracks[id].s.completed
  {
    hide Inv, Settled, SomeStranded, Known, Measure, Enabled, Productive, Legal, After;
    NeverStranded(sys, evs);
    DrainBound(sys, evs);
    RunKeeps(sys, evs);
    var last := After(sys, evs);
    if Settled(last) {
      SettledIsDone(last);
    } else {
      var ev := StillMoves(last);
    }
  }

  // ---------------------------------------------------------------- exactly when a drain ends

  lemma TouchElsewhere(mid: System, j: nat, h: Handler, id: nat)
    requires j < |mid.tracks| && id < |mid.tracks| && j != id && Possible(mid.tracks[j], h)
    ensures Stranded(mid, id) ==> Stranded(Touch(mid, j, h), id)
  {
    hide Touch, Advance, Possible;
    TouchOnlyAt(mid, j, h);
    TouchQueues(mid, j, h);
  }

  lemma CheckStopLeft(sys: System, j: nat, accept: bool, id: nat)
    requires TracksOk(sys) && Known(sys) && sys.e.stop && Stranded(sys, id) && sys.parking[j] > 0
    ensures Stranded(TestStop(sys, j, accept), id)
  {
    hide Touch, TracksOk;
    OneCustodian(sys, id);
    OneCustodian(sys, j);
    TouchElsewhere(sys.(parking := sys.parking - multiset{j}), j, EngineClose(accept), id);
  }

  /** Nothing that is bound to happen helps a stranded session. */
  lemma StrandedStays(sys: System, ev: Event, id: nat)
    requires Inv(sys) && Known(sys) && Enabled(sys, ev) && sys.e.pc.Drained? && Stranded(sys, id) && Productive(ev)
    ensures Stranded(Step(sys, ev), id)
  {
    hide Touch, TestStop, BucketOk, SlotsOk, TokensOk, PriceOk, TracksOk, Advance;
    match ev {
      case Callback(j, h) => TouchElsewhere(sys, j, h, id);
      case CheckStop(j, accept) => CheckStopLeft(sys, j, accept, id);
      case Push(j) =>
        assert multiset(Step(sys, ev).e.ready) == multiset(sys.e.ready) + multiset{j};
      case _ =>
    }
  }

  lemma {:induction false} StrandedThrough(sys: System, evs: seq<Event>, id: nat)
    requires Inv(sys) && Known(sys) && sys.e.pc.Drained? && Legal(sys, evs) && Stranded(sys, id) && AllProductive(evs)
    ensures Stranded(After(sys, evs), id)
    decreases |evs|
  {
    hide Inv, Known, Enabled, Step, Stranded, Productive, Measure;
    if evs != [] {
      assert Productive(evs[0]);
      StrandedStays(sys, evs[0], id);
      DrainStep(sys, evs[0]);
      StepKeeps(sys, evs[0]);
      assert forall i :: 0 <= i < |evs[1..]| ==> evs[1..][i] == evs[i + 1];
      StrandedThrough(Step(sys, evs[0]), evs[1..], id);
    }
  }

  /** From a state with a stranded session the drain can run to a standstill
      with that session still open. */
  lemma StandsStill(sys: System, id: nat) returns (evs: seq<Event>)
    requires Inv(sys) && Known(sys) && sys.e.pc.Drained? && Stranded(sys, id)
    ensures Legal(sys, evs) && Settled(After(sys, evs)) && Stranded(After(sys, evs), id)
  {
    hide Inv, Known, Settled, Stranded, Legal, After, AllProductive, Measure;
    evs := RunsOut(sys);
    StrandedThrough(sys, evs, id);
  }

  lemma StrandedLives(sys: System, id: nat)
    requires Inv(sys) && Stranded(sys, id)
    ensures sys.e.live > 0
  {
    hide SumOf, TracksOk, BucketOk, TokensOk;
    SumZero(sys.tracks, OpenOne);
    assert OpenOne(sys.tracks[id]) == 1;
  }

  /** Every continuation of a drain that has settled ends with live == 0. */
  ghost predicate AlwaysDrains(sys: System) {
    forall evs: seq<Event> :: Legal(sys, evs) && Settled(After(sys, evs)) ==> After(sys, evs).e.live == 0
  }

  /** Every drain can settle; the live counter is then 0 in every continuation
      if and only if no session is stranded. */
  lemma DrainCompletesIff(sys: System)
    requires Inv(sys) && Known(sys) && sys.e.pc.Drained?
    ensures exists evs: seq<Event> :: Legal(sys, evs) && Settled(After(sys, evs))
    ensures !SomeStranded(sys) <==> AlwaysDrains(sys)
  {
    hide Inv, Known, Settled, Legal, After, Stranded, Measure;
    var out := RunsOut(sys);
    if id: nat :| Stranded(sys, id) {
      var evs := StandsStill(sys, id);
      RunKeeps(sys, evs);
      StrandedLives(After(sys, evs), id);
    } else {
      forall evs: seq<Event> | Legal(sys, evs) && Settled(After(sys, evs))
        ensures After(sys, evs).e.live == 0
      {
        DrainCompletes(sys, evs);
      }
    }
  }

  /** A callback thread that passed the stop test holds an unfinished session
      for which no Close is on its way. */
  ghost predicate PassedTheTest(sys: System, id: nat) {
    sys.pushing[id] > 0 && id < |sys.tracks| && !sys.tracks[id].s.completed && sys.tracks[id].owed.close == 0
  }

  lemma StrandedAtSweepEnd(sys: System, id: nat)
    requires TracksOk(sys) && sys.e.ready == []
    ensures Stranded(sys, id) <==> PassedTheTest(sys, id)
  {
    hide Ledger, Counts, Layout, Endings;
    if sys.pushing[id] > 0 {
      OneCustodian(sys, id);
      assert TrackOk(sys, id);
    }
  }

  /** The end of the sweep decides the drain: it completes, whatever happens
      next, if and only if at that moment no callback thread stands between its
      stop test and its push with an unfinished session that has no Close on
      its way. */
  lemma SweepDecidesTheDrain(sys: System, io: Io)
    requires Inv(sys) && Known(sys) && sys.e.pc.Sweeping? && sys.e.ready == []
    ensures EngineStep(sys, io).e.pc.Drained?
    ensures AlwaysDrains(EngineStep(sys, io)) <==> forall id: nat :: !PassedTheTest(sys, id)
  {
    hide Inv, Known, AlwaysDrains, Stranded, PassedTheTest;
    var next := EngineStep(sys, io);
    assert next == At(sys, Drained);
    StepKeeps(sys, EngineAct(io));
    DrainCompletesIff(next);
    forall id: nat
      ensures Stranded(next, id) <==> PassedTheTest(sys, id)
    {
      InvTracks(next);
      StrandedAtSweepEnd(next, id);
      SamePassed(sys, next, id);
    }
  }

  lemma InvTracks(sys: System)
    requires Inv(sys)
    ensures TracksOk(sys)
  {
    hide TracksOk;
  }

  lemma SamePassed(sys: System, next: System, id: nat)
    requires next.pushing == sys.pushing && next.tracks == sys.tracks
    ensures PassedTheTest(next, id) <==> PassedTheTest(sys, id)
  {
  }
}
