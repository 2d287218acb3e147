/** Every session of a run is one the configured pattern can draw, and reads as
    that pattern says. */
module Workloads {
  import opened Prelude
  import opened TokenBuckets
  import opened RunConfigs
  import opened Schedulers
  import opened SessionSpec
  import opened SessionLedger
  import opened EngineSpec
  import opened EngineInvariants
  import opened EngineSteps
  import opened EngineRuns
  import opened Effects
  import opened Deadlines

  ghost predicate Drawable(cfg: RunConfig, o: Options) {
    exists d: Draws :: Item(cfg, d).session == o
  }

  /** Sessions, and the one about to start, come from the generator. */
  ghost predicate FromItems(sys: System) {
    && (forall id: nat :: id < |sys.tracks| ==> Drawable(sys.cfg, sys.tracks[id].s.opts))
    && (sys.e.pc.Drawn? || sys.e.pc.Charged? || sys.e.pc.Admitted? ==> Drawable(sys.cfg, sys.e.pc.item.session))
  }

  lemma EngineItem(sys: System, io: Io)
    requires Known(sys) && FromItems(sys)
    ensures var pc := EngineStep(sys, io).e.pc;
            pc.Drawn? || pc.Charged? || pc.Admitted? ==> Drawable(sys.cfg, pc.item.session)
  {
    hide Drawable, Touch, Begin, PutBack, Take, PayContinuation;
    match sys.e.pc {
      case Priced(id, n) =>
        assert Holds(sys.e.pc, id);
        TouchEngine(Dispose(sys, id), id, EngineClose(io.accept));
        PayEngine(sys, id, n);
      case Paid(id, n) =>
        assert Holds(sys.e.pc, id);
        TouchEngine(Dispose(sys, id), id, EngineIssue(n, io.accept, io.draws));
      case Slotted =>
        ItemDrawable(sys.cfg, io.pick);
      case Sweeping =>
        if |sys.e.ready| > 0 {
          var id := sys.e.ready[0];
          var swept := sys.(e := sys.e.(ready := sys.e.ready[1..]), disposed := sys.disposed + [id]);
          TouchEngine(swept, id, EngineClose(io.accept));
        }
      case _ =>
    }
  }

  lemma ItemDrawable(cfg: RunConfig, d: Draws)
    ensures Drawable(cfg, Item(cfg, d).session)
  {
  }

  lemma PayEngine(sys: System, id: nat, n: nat)
    requires id < |sys.tracks|
    ensures PayContinuation(sys, id, n).e.pc.Paid? || PayContinuation(sys, id, n).e.pc.Refused?
  {
    hide Take;
  }

  lemma TouchEngine(mid: System, id: nat, h: Handler)
    requires id < |mid.tracks| && Possible(mid.tracks[id], h)
    ensures Touch(mid, id, h).e.pc == mid.e.pc
  {
    hide Advance, Possible, PutBack;
  }

  lemma StepItem(sys: System, ev: Event)
    requires Known(sys) && Enabled(sys, ev) && FromItems(sys)
    ensures var pc := Step(sys, ev).e.pc;
            pc.Drawn? || pc.Charged? || pc.Admitted? ==> Drawable(sys.cfg, pc.item.session)
  {
    hide Drawable, Touch, EngineStep;
    match ev {
      case Callback(id, h) => TouchEngine(sys, id, h);
      case CheckStop(id, accept) =>
        TouchEngine(sys.(parking := sys.parking - multiset{id}), id, EngineClose(accept));
      case EngineAct(io) => EngineItem(sys, io);
      case _ =>
    }
  }

  lemma MovesItems(sys: System, next: System, effect: Effect)
    requires Applies(sys, effect) && Moves(sys, next, effect) && FromItems(sys) && next.cfg == sys.cfg
    requires effect.Starts? ==> Drawable(sys.cfg, effect.item.session)
    ensures forall id: nat :: id < |next.tracks| ==> Drawable(next.cfg, next.tracks[id].s.opts)
  {
    hide Drawable, Handle, Possible;
    if effect.Runs? {
      HandlerArms(sys.tracks[effect.id].s, effect.h);
    }
  }

  lemma StepFromItems(sys: System, ev: Event)
    requires Known(sys) && Enabled(sys, ev) && FromItems(sys)
    ensures FromItems(Step(sys, ev))
  {
    hide Drawable, Step, Moves, Reports;
    StepDoes(sys, ev);
    StepConstants(sys, ev);
    StepItem(sys, ev);
    MovesItems(sys, Step(sys, ev), EffectOf(sys, ev));
  }

  lemma {:induction false} RunFromItems(sys: System, evs: seq<Event>)
    requires Inv(sys) && Known(sys) && Legal(sys, evs) && FromItems(sys)
    ensures FromItems(After(sys, evs))
    decreases |evs|
  {
    hide Inv, Known, Enabled, Step, FromItems;
    if evs != [] {
      StepFromItems(sys, evs[0]);
      StepKeeps(sys, evs[0]);
      RunFromItems(Step(sys, evs[0]), evs[1..]);
    }
  }

  lemma ReachableFromItems(cfg: RunConfig, sys: System)
    requires Sane(cfg) && Reachable(cfg, sys)
    ensures FromItems(sys)
  {
    hide Inv, Known, Legal, After;
    var start: real, evs: seq<Event> :| Legal(Initial(cfg, start), evs) && sys == After(Initial(cfg, start), evs);
    InitialInv(cfg, start);
    InvKnown(Initial(cfg, start));
    RunFromItems(Initial(cfg, start), evs);
  }

  /** In every reachable state every session is one the generator can draw. In
      a sequential or vector run its reads cover the file from the first byte on
      without a gap; in a random run each of its reads is a sampled piece, and
      only vector and mixed runs read several pieces at once. */
  lemma SessionsFollowPattern(cfg: RunConfig, sys: System, id: nat)
    requires Sane(cfg) && Reachable(cfg, sys) && id < |sys.tracks|
    ensures var (t, o) := (sys.tracks[id], sys.tracks[id].s.opts);
            && Drawable(cfg, o)
            && o.chunkSize == cfg.chunkSize && o.maxBytes == cfg.maxBytes && (o.deadline <==> cfg.sessionTimeout > 0.0)
            && (cfg.pattern.Sequential? || cfg.pattern.Vector? ==> !o.randomOffset && ReadLists.Abut(t.issued, 0))
            && (cfg.pattern.Random? ==> o.randomOffset)
            && (cfg.pattern.Vector? ==> o.vectorChunks == Max(1, cfg.vectorChunks))
            && (cfg.pattern.Sequential? || cfg.pattern.Random? ==> o.vectorChunks == 0)
  {
    hide Drawable, Shape, Counts, Ledger, Answered, OpBytes, Item, Reachable;
    ReachableFromItems(cfg, sys);
    ReachableInv(cfg, sys);
    assert TrackOk(sys, id);
    assert Drawable(cfg, sys.tracks[id].s.opts);
    DrawnFollowsPattern(cfg, sys.tracks[id].s.opts);
  }

  lemma DrawnFollowsPattern(cfg: RunConfig, o: Options)
    requires Drawable(cfg, o)
    ensures o.chunkSize == cfg.chunkSize && o.offset == 0 && o.maxBytes == cfg.maxBytes
    ensures o.deadline <==> cfg.sessionTimeout > 0.0
    ensures cfg.pattern.Sequential? || cfg.pattern.Vector? ==> !o.randomOffset
    ensures cfg.pattern.Random? ==> o.randomOffset
    ensures cfg.pattern.Vector? ==> o.vectorChunks == Max(1, cfg.vectorChunks)
    ensures cfg.pattern.Sequential? || cfg.pattern.Random? ==> o.vectorChunks == 0
  {
    hide Item;
    var d: Draws :| Item(cfg, d).session == o;
    ItemFollowsPattern(cfg, d);
  }
}
