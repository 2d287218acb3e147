/** What one step of a run does to the sessions: it runs one handler of one
    session, starts one session, or leaves them all alone. */
module Effects {
  import opened Prelude
  import opened TokenBuckets
  import opened Schedulers
  import opened SessionSpec
  import opened SessionLedger
  import opened EngineSpec

  datatype Effect = NoEffect | Runs(id: nat, h: Handler) | Starts(item: WorkItem, accept: bool)

  ghost predicate Applies(sys: System, effect: Effect) {
    effect.Runs? ==> effect.id < |sys.tracks| && Possible(sys.tracks[effect.id], effect.h)
  }

  ghost function EffectOf(sys: System, ev: Event): (effect: Effect)
    requires Known(sys) && Enabled(sys, ev)
    ensures Applies(sys, effect)
  {
    match ev
    case Callback(id, h) => Runs(id, h)
    case CheckStop(id, accept) => if sys.e.stop then Runs(id, EngineClose(accept)) else NoEffect
    case EngineAct(io) => EngineEffect(sys, io)
    case _ => NoEffect
  }

  ghost function EngineEffect(sys: System, io: Io): (effect: Effect)
    requires Known(sys)
    ensures Applies(sys, effect)
  {
    match sys.e.pc
    case Priced(id, n) =>
      assert Holds(sys.e.pc, id);
      if n == 0 then Runs(id, EngineClose(io.accept)) else NoEffect
    case Paid(id, n) =>
      assert Holds(sys.e.pc, id);
      Runs(id, EngineIssue(n, io.accept, io.draws))
    case Admitted(item) => Starts(item, io.accept)
    case Sweeping => if |sys.e.ready| == 0 then NoEffect else Runs(sys.e.ready[0], EngineClose(io.accept))
    case _ => NoEffect
  }

  /** The session a step acts on. */
  function Subject(sys: System, effect: Effect): nat {
    if effect.Runs? then effect.id else |sys.tracks|
  }

  /** What that session asks of the world. */
  ghost function Asks(sys: System, effect: Effect): Fx
    requires Applies(sys, effect)
  {
    match effect
    case NoEffect => QUIET
    case Runs(id, h) => Advance(sys.tracks[id], h).1
    case Starts(item, accept) => Begin(item.session, item.opBytes, accept).1
  }

  /** Apart from the tokens charged to it the session is the same. */
  predicate SameButCharge(t: Track, u: Track) {
    u == t.(charged := u.charged)
  }

  /** The sessions move exactly as the effect says. */
  ghost predicate Moves(sys: System, next: System, effect: Effect)
    requires Applies(sys, effect)
  {
    && |next.tracks| == |sys.tracks| + (if effect.Starts? then 1 else 0)
    && (forall x: nat :: x < |sys.tracks| && !(effect.Runs? && effect.id == x) ==>
          SameButCharge(sys.tracks[x], next.tracks[x]))
    && (effect.Runs? ==> next.tracks[effect.id] == Advance(sys.tracks[effect.id], effect.h).0)
    && (effect.Starts? ==>
          next.tracks[|sys.tracks|] == Begin(effect.item.session, effect.item.opBytes, effect.accept).0)
  }

  /** The counters of finished sessions move exactly as the report says. */
  ghost predicate Reports(sys: System, next: System, done: Option<Report>) {
    && next.okCount == sys.okCount + (if done.Some? && done.value.ok then 1 else 0)
    && next.failCount == sys.failCount + (if done.Some? && !done.value.ok then 1 else 0)
    && next.bytesTotal == sys.bytesTotal + (if done.Some? && done.value.ok then done.value.bytesRead else 0)
  }

  /** `mid` has the sessions and counters of `sys`. */
  ghost predicate SameSessions(sys: System, mid: System) {
    && mid.tracks == sys.tracks && mid.okCount == sys.okCount && mid.failCount == sys.failCount
    && mid.bytesTotal == sys.bytesTotal
  }

  lemma TouchDoes(sys: System, mid: System, id: nat, h: Handler)
    requires SameSessions(sys, mid) && Applies(sys, Runs(id, h))
    ensures Moves(sys, Touch(mid, id, h), Runs(id, h))
    ensures Reports(sys, Touch(mid, id, h), Asks(sys, Runs(id, h)).done)
  {
    hide Advance, Possible, PutBack;
  }

  lemma StartDoes(sys: System, item: WorkItem, accept: bool)
    ensures Moves(sys, StartSession(sys, item, accept), Starts(item, accept))
    ensures Reports(sys, StartSession(sys, item, accept), Asks(sys, Starts(item, accept)).done)
  {
    hide Begin, PutBack;
  }

  lemma PayDoes(sys: System, id: nat, n: nat)
    requires id < |sys.tracks|
    ensures Moves(sys, PayContinuation(sys, id, n), NoEffect)
    ensures Reports(sys, PayContinuation(sys, id, n), None)
  {
    hide Take;
  }

  lemma NothingDone(sys: System, next: System)
    requires SameSessions(sys, next)
    ensures Moves(sys, next, NoEffect) && Reports(sys, next, None)
  {
  }

  lemma EngineDoes(sys: System, io: Io)
    requires Known(sys)
    ensures Moves(sys, EngineStep(sys, io), EngineEffect(sys, io))
    ensures Reports(sys, EngineStep(sys, io), Asks(sys, EngineEffect(sys, io)).done)
  {
    hide Touch, StartSession, PayContinuation, Moves, Reports, Advance, Begin, Take, PutBack;
    match sys.e.pc {
      case Priced(id, n) =>
        assert Holds(sys.e.pc, id);
        if n == 0 {
          TouchDoes(sys, Dispose(sys, id), id, EngineClose(io.accept));
        } else {
          PayDoes(sys, id, n);
        }
      case Paid(id, n) =>
        assert Holds(sys.e.pc, id);
        TouchDoes(sys, Dispose(sys, id), id, EngineIssue(n, io.accept, io.draws));
      case Admitted(item) =>
        StartDoes(sys, item, io.accept);
      case Sweeping =>
        if |sys.e.ready| > 0 {
          var id := sys.e.ready[0];
          var swept := sys.(e := sys.e.(ready := sys.e.ready[1..]), disposed := sys.disposed + [id]);
          TouchDoes(sys, swept, id, EngineClose(io.accept));
        } else {
          NothingDone(sys, EngineStep(sys, io));
        }
      case _ =>
        NothingDone(sys, EngineStep(sys, io));
    }
  }

  /** A step does to sessions and counters exactly what its effect says. */
  lemma StepDoes(sys: System, ev: Event)
    requires Known(sys) && Enabled(sys, ev)
    ensures Moves(sys, Step(sys, ev), EffectOf(sys, ev))
    ensures Reports(sys, Step(sys, ev), Asks(sys, EffectOf(sys, ev)).done)
  {
    hide Touch, Moves, Reports, Advance, EngineStep, EngineEffect;
    match ev {
      case Callback(id, h) => TouchDoes(sys, sys, id, h);
      case CheckStop(id, accept) =>
        if sys.e.stop {
          TouchDoes(sys, sys.(parking := sys.parking - multiset{id}), id, EngineClose(accept));
        } else {
          NothingDone(sys, Step(sys, ev));
        }
      case EngineAct(io) => EngineDoes(sys, io);
      case _ => NothingDone(sys, Step(sys, ev));
    }
  }
}
