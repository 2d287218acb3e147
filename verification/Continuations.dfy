/** The order in which the engine serves sessions: continuations first in,
    first out, and new sessions only when no continuation waits. */
module Continuations {
  import opened TokenBuckets
  import opened Schedulers
  import opened RunConfigs
  import opened SessionLedger
  import opened EngineSpec
  import opened EngineInvariants
  import opened EngineRuns

  /** Continuations are served in the order they were parked: what the engine
      has let go of, what it holds, and what waits make up the parking order. */
  lemma ServedInOrder(cfg: RunConfig, sys: System)
    requires Sane(cfg) && Reachable(cfg, sys)
    ensures sys.parkLog == sys.disposed + HeldNow(sys.e.pc) + sys.e.ready
    ensures sys.disposed <= sys.parkLog
  {
    ReachableInv(cfg, sys);
    hide TracksOk, PriceOk, TokensOk, BucketOk, SlotsOk;
    assert sys.disposed + HeldNow(sys.e.pc) + sys.e.ready == sys.disposed + (HeldNow(sys.e.pc) + sys.e.ready);
  }

  /** The parking order only grows at its end, and a session the bucket refused
      goes back in front of every session parked later. */
  lemma RefusedKeepsItsTurn(cfg: RunConfig, sys: System, io: Io)
    requires Sane(cfg) && Reachable(cfg, sys) && sys.e.pc.Refused?
    ensures Known(sys)
    ensures var next := Step(sys, EngineAct(io));
            && next.parkLog == sys.parkLog && next.disposed == sys.disposed
            && next.e.ready == [sys.e.pc.id] + sys.e.ready
            && next.parkLog == next.disposed + next.e.ready
  {
    ReachableInv(cfg, sys);
    hide TracksOk, PriceOk, TokensOk, BucketOk, SlotsOk;
    var id := sys.e.pc.id;
    assert sys.disposed + [id] + sys.e.ready == sys.disposed + ([id] + sys.e.ready);
  }

  /** The engine is on its way to start a new session. */
  predicate Admitting(pc: Pc) {
    pc.Seeking? || pc.Wanting? || pc.Slotted? || pc.Drawn? || pc.GivingBack? || pc.Charged? || pc.Admitted?
  }

  lemma TouchKeepsOrder(mid: System, id: nat, h: Handler)
    requires id < |mid.tracks| && Possible(mid.tracks[id], h)
    ensures var next := Touch(mid, id, h);
            && next.parkLog == mid.parkLog && next.disposed == mid.disposed && next.e.pc == mid.e.pc
  {
    hide Advance, Possible, PutBack;
  }

  lemma StartKeepsOrder(sys: System, item: WorkItem, accept: bool)
    ensures var next := StartSession(sys, item, accept);
            && next.parkLog == sys.parkLog && next.disposed == sys.disposed && next.e.pc.Top?
  {
    hide Begin, PutBack;
  }

  /** The order of service after one action of the engine. */
  ghost predicate Extends(sys: System, next: System) {
    && sys.parkLog == next.parkLog && sys.disposed <= next.disposed
    && (!Admitting(sys.e.pc) && Admitting(next.e.pc) ==> sys.e.pc.Top? && sys.e.ready == [])
  }

  lemma TouchExtends(sys: System, mid: System, id: nat, h: Handler)
    requires id < |mid.tracks| && Possible(mid.tracks[id], h)
    requires mid.parkLog == sys.parkLog && sys.disposed <= mid.disposed && !Admitting(mid.e.pc)
    ensures Extends(sys, Touch(mid, id, h))
  {
    TouchKeepsOrder(mid, id, h);
    hide Touch, Possible, Admitting;
  }

  lemma PlainActExtends(sys: System, io: Io)
    requires Known(sys) && !sys.e.pc.Priced? && !sys.e.pc.Paid? && !sys.e.pc.Admitted? && !sys.e.pc.Sweeping?
    ensures Extends(sys, EngineStep(sys, io))
  {
    hide Touch, StartSession, Take, Item;
  }

  lemma PricedActExtends(sys: System, io: Io)
    requires Known(sys) && (sys.e.pc.Priced? || sys.e.pc.Paid?)
    ensures Extends(sys, EngineStep(sys, io))
  {
    var id := sys.e.pc.id;
    assert Holds(sys.e.pc, id);
    if sys.e.pc.Paid? {
      TouchExtends(sys, Dispose(sys, id), id, EngineIssue(sys.e.pc.n, io.accept, io.draws));
    } else if sys.e.pc.n == 0 {
      TouchExtends(sys, Dispose(sys, id), id, EngineClose(io.accept));
    }
    hide Touch, StartSession, Take, Extends;
    if sys.e.pc.Priced? && sys.e.pc.n != 0 {
      assert Extends(sys, PayContinuation(sys, id, sys.e.pc.n)) by {
        PayExtends(sys, id, sys.e.pc.n);
      }
    }
  }

  lemma PayExtends(sys: System, id: nat, n: nat)
    requires id < |sys.tracks|
    ensures Extends(sys, PayContinuation(sys, id, n))
  {
    hide Take;
  }

  lemma SweepExtends(sys: System, io: Io)
    requires Known(sys) && sys.e.pc.Sweeping?
    ensures Extends(sys, EngineStep(sys, io))
  {
    if |sys.e.ready| > 0 {
      var id := sys.e.ready[0];
      var swept := sys.(e := sys.e.(ready := sys.e.ready[1..]), disposed := sys.disposed + [id]);
      TouchExtends(sys, swept, id, EngineClose(io.accept));
      hide Extends, Touch;
    }
    hide Touch;
  }

  lemma EngineExtends(sys: System, io: Io)
    requires Known(sys)
    ensures Extends(sys, EngineStep(sys, io))
  {
    hide Known, Extends, EngineStep;
    match sys.e.pc {
      case Priced(_, _) => PricedActExtends(sys, io);
      case Paid(_, _) => PricedActExtends(sys, io);
      case Admitted(item) => AdmittedActExtends(sys, io);
      case Sweeping => SweepExtends(sys, io);
      case _ => PlainActExtends(sys, io);
    }
  }

  lemma AdmittedActExtends(sys: System, io: Io)
    requires Known(sys) && sys.e.pc.Admitted?
    ensures Extends(sys, EngineStep(sys, io))
  {
    StartKeepsOrder(sys, sys.e.pc.item, io.accept);
    hide StartSession;
  }

  /** Nothing is ever taken back from the parking order or from what was served. */
  lemma StepExtends(sys: System, ev: Event)
    requires Known(sys) && Enabled(sys, ev)
    ensures sys.parkLog <= Step(sys, ev).parkLog && sys.disposed <= Step(sys, ev).disposed
    ensures !Admitting(sys.e.pc) && Admitting(Step(sys, ev).e.pc) ==>
              ev.EngineAct? && sys.e.pc.Top? && sys.e.ready == []
  {
    match ev {
      case Callback(id, h) => TouchKeepsOrder(sys, id, h);
      case CheckStop(id, accept) =>
        TouchKeepsOrder(sys.(parking := sys.parking - multiset{id}), id, EngineClose(accept));
      case EngineAct(io) => EngineExtends(sys, io);
      case _ =>
    }
    hide Touch, EngineStep, Possible, Admitting;
  }

  lemma {:induction false} OrderOnlyGrows(sys: System, evs: seq<Event>)
    requires Legal(sys, evs)
    ensures sys.parkLog <= After(sys, evs).parkLog && sys.disposed <= After(sys, evs).disposed
    decreases |evs|
  {
    if evs != [] {
      StepExtends(sys, evs[0]);
      hide Known, Enabled, Step;
      OrderOnlyGrows(Step(sys, evs[0]), evs[1..]);
    }
  }

  /** A session parked later is never let go of earlier: whatever the engine
      serves up to any later moment, it serves in parking order. */
  lemma NeverOvertaken(cfg: RunConfig, sys: System, evs: seq<Event>)
    requires Sane(cfg) && Reachable(cfg, sys) && Legal(sys, evs)
    ensures After(sys, evs).disposed <= After(sys, evs).parkLog
    ensures sys.parkLog <= After(sys, evs).parkLog
    ensures |sys.parkLog| <= |After(sys, evs).disposed| ==> sys.parkLog <= After(sys, evs).disposed
    ensures |After(sys, evs).disposed| <= |sys.parkLog| ==> After(sys, evs).disposed <= sys.parkLog
  {
    hide Inv, Known, Legal, After, Reachable;
    ReachableInv(cfg, sys);
    RunKeeps(sys, evs);
    OrderOnlyGrows(sys, evs);
    var later := After(sys, evs);
    DisposedFirst(later);
    PrefixesOfOne(sys.parkLog, later.disposed, later.parkLog);
  }

  lemma DisposedFirst(sys: System)
    requires Inv(sys)
    ensures sys.disposed <= sys.parkLog
  {
    hide TracksOk, BucketOk, SlotsOk, TokensOk, PriceOk, HeldNow;
    assert sys.disposed + HeldNow(sys.e.pc) + sys.e.ready == sys.disposed + (HeldNow(sys.e.pc) + sys.e.ready);
  }

  lemma PrefixesOfOne(a: seq<nat>, b: seq<nat>, whole: seq<nat>)
    requires a <= whole && b <= whole
    ensures |a| <= |b| ==> a <= b
    ensures |b| <= |a| ==> b <= a
  {
  }

  // ---------------------------------------------------------------- admissions

  lemma {:induction false} LastStep(sys: System, evs: seq<Event>, ev: Event)
    requires Legal(sys, evs + [ev])
    ensures Legal(sys, evs) && Known(After(sys, evs)) && Enabled(After(sys, evs), ev)
    ensures After(sys, evs + [ev]) == Step(After(sys, evs), ev)
    decreases |evs|
  {
    hide Known, Enabled, Step;
    if evs == [] {
      assert evs + [ev] == [ev];
      assert Legal(Step(sys, ev), []);
    } else {
      assert (evs + [ev])[0] == evs[0] && (evs + [ev])[1..] == evs[1..] + [ev];
      LastStep(Step(sys, evs[0]), evs[1..], ev);
    }
  }

  /** The k-th step was taken at the top of the loop with no continuation
      ready, and from it on the engine was admitting a session. */
  ghost predicate SawNoneReady(sys: System, evs: seq<Event>, k: nat) {
    && k < |evs| && evs[k].EngineAct? && Legal(sys, evs[..k])
    && After(sys, evs[..k]).e.pc.Top? && After(sys, evs[..k]).e.ready == []
    && (forall j :: k < j <= |evs| ==> Legal(sys, evs[..j]) && Admitting(After(sys, evs[..j]).e.pc))
  }

  lemma SawBefore(sys: System, init: seq<Event>, ev: Event, k: nat)
    requires SawNoneReady(sys, init, k)
    requires Legal(sys, init + [ev]) && Admitting(After(sys, init + [ev]).e.pc)
    ensures SawNoneReady(sys, init + [ev], k)
  {
    hide Legal, After, Admitting;
    var evs := init + [ev];
    assert evs[..k] == init[..k];
    forall j | k < j <= |evs|
      ensures Legal(sys, evs[..j]) && Admitting(After(sys, evs[..j]).e.pc)
    {
      if j == |evs| {
        assert evs[..j] == evs;
      } else {
        assert evs[..j] == init[..j];
      }
    }
  }

  lemma SawNow(sys: System, init: seq<Event>, ev: Event)
    requires Legal(sys, init) && Legal(sys, init + [ev]) && Admitting(After(sys, init + [ev]).e.pc) && ev.EngineAct?
    requires After(sys, init).e.pc.Top? && After(sys, init).e.ready == []
    ensures SawNoneReady(sys, init + [ev], |init|)
  {
    hide Legal, After, Admitting;
    var evs := init + [ev];
    assert evs[..|init|] == init && evs[..|evs|] == evs;
  }

  /** Whenever the engine is admitting a session, the iteration it is in began
      by seeing that no continuation was ready. */
  lemma {:induction false} AdmissionSawNoneReady(sys: System, evs: seq<Event>) returns (k: nat)
    requires Legal(sys, evs) && !Admitting(sys.e.pc) && Admitting(After(sys, evs).e.pc)
    ensures SawNoneReady(sys, evs, k)
    decreases |evs|
  {
    assert evs != [];
    hide Known, Enabled, Step, Legal, After, Admitting, SawNoneReady;
    var init, ev := evs[..|evs| - 1], evs[|evs| - 1];
    assert evs == init + [ev];
    LastStep(sys, init, ev);
    if Admitting(After(sys, init).e.pc) {
      k := AdmissionSawNoneReady(sys, init);
      SawBefore(sys, init, ev, k);
    } else {
      k := |init|;
      StepExtends(After(sys, init), ev);
      SawNow(sys, init, ev);
    }
  }
}
