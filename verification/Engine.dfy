/** The run as a state machine. One step is one atomic action of one thread:
    the engine loop, an XrdCl callback thread, the deadline watchdog, or the
    tail of a finished session. Every interleaving of the steps is a run. */
module EngineSpec {
  import opened Prelude
  import opened TokenBuckets
  import opened Inflight
  import opened RunConfigs
  import opened Schedulers
  import opened SessionSpec
  import opened SessionLedger

  /** Where the engine thread stands between two atomic actions. */
  datatype Pc =
    | Top                             // before the deadline test
    | Popped(id: nat)                 // holds a continuation
    | Unfinished(id: nat)             // saw that it is not completed
    | Priced(id: nat, n: nat)         // knows the size of its next read
    | Refused(id: nat)                // the bucket was short
    | Paid(id: nat, n: nat)           // took the tokens
    | Seeking                         // saw no continuation
    | Wanting                         // saw live below the limit
    | Slotted                         // holds a semaphore slot
    | Drawn(item: WorkItem)           // has the next work item
    | GivingBack                      // the bucket was short, slot still held
    | Charged(item: WorkItem)         // took the tokens of a new session
    | Admitted(item: WorkItem)        // counted it as live
    | Sweeping                        // stop is set, closing what is parked
    | Drained                         // waits for live to reach zero

  /** The fields the engine thread and the callbacks share. */
  datatype Engine = Engine(pc: Pc, bucket: Bucket, max: nat, slots: nat, live: int, stop: bool, ready: seq<nat>)

  /** `parking` and `pushing` are the callback threads inside on_ready, before
      the stop test and between the test and the push; `observing` and
      `releasing` count the threads inside session_done, before the live
      counter goes down and between that and the semaphore release. */
  datatype System = System(
    cfg: RunConfig, e: Engine, tracks: seq<Track>,
    parking: multiset<nat>, pushing: multiset<nat>, observing: nat, releasing: nat,
    okCount: nat, failCount: nat, bytesTotal: nat, admitted: nat,
    acquired: nat, refunded: nat, parkLog: seq<nat>, disposed: seq<nat>,
    start: real, now: real)

  /** What the world answers to one action of the engine thread. */
  datatype Io = Io(deadlinePassed: bool, accept: bool, draws: seq<nat>, pick: Draws)

  datatype Event =
    | Tick(dt: real)
    | Callback(id: nat, h: Handler)
    | CheckStop(id: nat, accept: bool)
    | Push(id: nat)
    | LiveDown
    | ReleaseSlot
    | EngineAct(io: Io)

  function Initial(cfg: RunConfig, start: real): System {
    System(cfg, Engine(Top, Full(cfg.rate, BucketCapacity(cfg), start), Slots(cfg.maxInflight), 0, 0, false, []), [],
           multiset{}, multiset{}, 0, 0, 0, 0, 0, 0, 0, 0, [], [], start, start)
  }

  // ---------------------------------------------------------------- effects on the shared state

  function Holds(pc: Pc, id: nat): bool {
    (pc.Popped? || pc.Unfinished? || pc.Priced? || pc.Refused? || pc.Paid?) && pc.id == id
  }

  /** session_done, up to the point where it lowers the live counter. */
  function Observe(sys: System, done: Option<Report>): System {
    match done
    case None => sys
    case Some(r) =>
      sys.(observing := sys.observing + 1,
           okCount := sys.okCount + (if r.ok then 1 else 0),
           failCount := sys.failCount + (if r.ok then 0 else 1),
           bytesTotal := sys.bytesTotal + (if r.ok then r.bytesRead else 0))
  }

  function GiveBackTokens(sys: System, n: nat): System {
    sys.(e := sys.e.(bucket := PutBack(sys.e.bucket, n, sys.now)), refunded := sys.refunded + n)
  }

  /** Runs one handler of session `id` and lets its effects out. */
  function Touch(sys: System, id: nat, h: Handler): System
    requires id < |sys.tracks| && Possible(sys.tracks[id], h)
  {
    var (t, fx) := Advance(sys.tracks[id], h);
    var touched := GiveBackTokens(sys.(tracks := sys.tracks[id := t]), fx.refunded);
    var seen := Observe(touched, fx.done);
    if fx.parked then seen.(parking := seen.parking + multiset{id}) else seen
  }

  function At(sys: System, pc: Pc): System {
    sys.(e := sys.e.(pc := pc))
  }

  /** The engine lets go of a continuation. */
  function Dispose(sys: System, id: nat): System {
    At(sys, Top).(disposed := sys.disposed + [id])
  }

  // ---------------------------------------------------------------- the engine thread

  ghost predicate HoldsSession(sys: System) {
    forall id: nat :: Holds(sys.e.pc, id) ==> id < |sys.tracks|
  }

  /** Tokens for a continuation: from the bucket to the session's account. */
  function PayContinuation(sys: System, id: nat, n: nat): System
    requires id < |sys.tracks|
  {
    var (bucket, taken) := Take(sys.e.bucket, n, sys.now);
    if taken then
      sys.(e := sys.e.(bucket := bucket, pc := Paid(id, n)), acquired := sys.acquired + n,
           tracks := sys.tracks[id := sys.tracks[id].(charged := sys.tracks[id].charged + n)])
    else sys.(e := sys.e.(bucket := bucket, pc := Refused(id)))
  }

  /** Tokens for a session that does not exist yet. */
  function PayAdmission(sys: System, item: WorkItem): System {
    var (bucket, taken) := Take(sys.e.bucket, item.opBytes, sys.now);
    if taken then sys.(e := sys.e.(bucket := bucket, pc := Charged(item)), acquired := sys.acquired + item.opBytes)
    else sys.(e := sys.e.(bucket := bucket, pc := GivingBack))
  }

  function StartSession(sys: System, item: WorkItem, accept: bool): System {
    var (t, fx) := Begin(item.session, item.opBytes, accept);
    Observe(GiveBackTokens(At(sys, Top).(tracks := sys.tracks + [t]), fx.refunded), fx.done)
  }

  function ReleaseOne(e: Engine): Engine {
    e.(slots := if e.slots > 0 then e.slots - 1 else 0)
  }

  function EngineStep(sys: System, io: Io): System
    requires HoldsSession(sys)
    requires sys.e.pc.Sweeping? && |sys.e.ready| > 0 ==> sys.e.ready[0] < |sys.tracks|
  {
    var e := sys.e;
    match e.pc
    case Top =>
      if io.deadlinePassed then sys.(e := e.(stop := true, pc := Sweeping))
      else if |e.ready| > 0 then sys.(e := e.(pc := Popped(e.ready[0]), ready := e.ready[1..]))
      else if e.live < sys.cfg.maxInflight then At(sys, Seeking)
      else sys
    case Popped(id) =>
      assert Holds(e.pc, id);
      if sys.tracks[id].s.completed then Dispose(sys, id) else At(sys, Unfinished(id))
    case Unfinished(id) =>
      assert Holds(e.pc, id);
      At(sys, Priced(id, NextOpBytes(sys.tracks[id].s)))
    case Priced(id, n) =>
      assert Holds(e.pc, id);
      if n == 0 then Touch(Dispose(sys, id), id, EngineClose(io.accept))
      else PayContinuation(sys, id, n)
    case Refused(id) => sys.(e := e.(pc := Top, ready := [id] + e.ready))
    case Paid(id, n) =>
      assert Holds(e.pc, id);
      Touch(Dispose(sys, id), id, EngineIssue(n, io.accept, io.draws))
    case Seeking => At(sys, if e.live >= sys.cfg.maxInflight then Top else Wanting)
    case Wanting => if e.slots >= e.max then At(sys, Top) else sys.(e := e.(slots := e.slots + 1, pc := Slotted))
    case Slotted => At(sys, Drawn(Item(sys.cfg, io.pick)))
    case Drawn(item) => PayAdmission(sys, item)
    case GivingBack => sys.(e := ReleaseOne(e).(pc := Top))
    case Charged(item) => sys.(e := e.(live := e.live + 1, pc := Admitted(item)), admitted := sys.admitted + 1)
    case Admitted(item) => StartSession(sys, item, io.accept)
    case Sweeping =>
      if |e.ready| == 0 then At(sys, Drained)
      else
        var id := e.ready[0];
        var swept := sys.(e := e.(ready := e.ready[1..]), disposed := sys.disposed + [id]);
        Touch(swept, id, EngineClose(io.accept))
    case Drained => sys
  }

  // ---------------------------------------------------------------- all threads

  /** The callback thread of a parked session tests the stop flag. */
  function TestStop(sys: System, id: nat, accept: bool): System
    requires id < |sys.tracks|
  {
    var leaving := sys.(parking := sys.parking - multiset{id});
    if sys.e.stop then Touch(leaving, id, EngineClose(accept))
    else leaving.(pushing := sys.pushing + multiset{id})
  }

  function PushReady(sys: System, id: nat): System {
    sys.(pushing := sys.pushing - multiset{id}, e := sys.e.(ready := sys.e.ready + [id]), parkLog := sys.parkLog + [id])
  }

  /** The deadline test at the top of the loop never sees the deadline passed
      before it has, and always does when the run has no duration. */
  predicate InTime(sys: System, io: Io) {
    && (io.deadlinePassed ==> sys.now >= sys.start + sys.cfg.duration)
    && (sys.cfg.duration <= 0.0 ==> io.deadlinePassed)
  }

  /** Which steps can happen: XrdCl delivers what it owes, the watchdog may
      fire for any session at any moment, and while the engine sweeps it holds
      the lock a push needs. */
  ghost predicate Enabled(sys: System, ev: Event) {
    match ev
    case Tick(dt) => dt >= 0.0
    case Callback(id, h) => id < |sys.tracks| && !h.Custodial() && Possible(sys.tracks[id], h)
    case CheckStop(id, _) => sys.parking[id] > 0
    case Push(id) => sys.pushing[id] > 0 && !sys.e.pc.Sweeping?
    case LiveDown => sys.observing > 0
    case ReleaseSlot => sys.releasing > 0
    case EngineAct(io) => sys.e.pc.Top? ==> InTime(sys, io)
  }

  /** Every index the shared state mentions names a session. */
  ghost predicate Known(sys: System) {
    && HoldsSession(sys)
    && (forall k :: 0 <= k < |sys.e.ready| ==> sys.e.ready[k] < |sys.tracks|)
    && (forall id: nat :: sys.parking[id] > 0 ==> id < |sys.tracks|)
  }

  function Step(sys: System, ev: Event): System
    requires Known(sys) && Enabled(sys, ev)
  {
    match ev
    case Tick(dt) => sys.(now := sys.now + dt)
    case Callback(id, h) => Touch(sys, id, h)
    case CheckStop(id, accept) => TestStop(sys, id, accept)
    case Push(id) => PushReady(sys, id)
    case LiveDown =>
      sys.(observing := sys.observing - 1, releasing := sys.releasing + 1, e := sys.e.(live := sys.e.live - 1))
    case ReleaseSlot => sys.(releasing := sys.releasing - 1, e := ReleaseOne(sys.e))
    case EngineAct(io) => EngineStep(sys, io)
  }
}
