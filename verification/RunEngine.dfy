/** The engine thread as the loop it is: one turn of the loop, the callbacks
    that other threads run into the engine, and the sweep. Turns are proved to
    be runs of atomic steps of the state machine. */
module RunEngines {
  import opened TokenBuckets
  import opened Inflight
  import opened RunConfigs
  import opened Schedulers
  import opened SessionSpec
  import opened EngineSpec
  import opened EngineInvariants
  import opened EngineSteps
  import opened EngineRuns
  import FileSessions

  type FileSession = FileSessions.FileSession

  /** How one turn of the loop ends, up to the session it then calls. */
  datatype Turn =
    | Stopped                         // the deadline passed: the loop is left
    | Idle                            // nothing to do yet
    | Skipped(id: nat)                // the continuation was already over
    | Closing(id: nat)                // nothing left to read: CloseNow follows
    | Waiting(id: nat)                // short of tokens, back to the front
    | Issuing(id: nat, n: nat)        // paid: IssueNext follows
    | NoSlot
    | NoTokens
    | Starting(item: WorkItem)        // paid and counted: Start follows

  /** What the engine sees of the sessions and of the world during one turn. */
  datatype View = View(late: bool, over: set<nat>, next: nat -> nat, pick: Draws, now: real)

  function TurnOf(e: Engine, cfg: RunConfig, v: View): (Engine, Turn) {
    if v.late then (e.(stop := true, pc := Sweeping), Stopped)
    else if |e.ready| > 0 then Continue(e.(ready := e.ready[1..]), e.ready[0], v)
    else if e.live >= cfg.maxInflight then (e, Idle)
    else if e.slots >= e.max then (e, NoSlot)
    else
      var item := Item(cfg, v.pick);
      var (bucket, taken) := Take(e.bucket, item.opBytes, v.now);
      if taken then
        (e.(bucket := bucket, slots := e.slots + 1, live := e.live + 1, pc := Admitted(item)), Starting(item))
      else (e.(bucket := bucket), NoTokens)
  }

  function Continue(e: Engine, id: nat, v: View): (Engine, Turn) {
    if id in v.over then (e, Skipped(id))
    else if v.next(id) == 0 then (e.(pc := Priced(id, 0)), Closing(id))
    else
      var (bucket, taken) := Take(e.bucket, v.next(id), v.now);
      if taken then (e.(bucket := bucket, pc := Paid(id, v.next(id))), Issuing(id, v.next(id)))
      else (e.(bucket := bucket, ready := [id] + e.ready), Waiting(id))
  }

  /** Asking for the wait right after a refusal finds the bucket as it is. */
  lemma AskAfterRefusal(b: Bucket, n: nat, now: real)
    requires b.Valid() && !Take(b, n, now).1
    ensures WaitFor(Take(b, n, now).0, n, now).0 == Take(b, n, now).0
  {
    RefillTwice(b, now, now);
  }

  /** The wait reported after a refusal is the wait from before it. */
  lemma WaitAfterRefusal(b: Bucket, n: nat, now: real)
    requires b.Valid() && !Take(b, n, now).1
    ensures WaitFor(Take(b, n, now).0, n, now).1 == WaitFor(b, n, now).1
  {
    RefillTwice(b, now, now);
  }

  /** CloseNow has been run on this session, with that answer of XrdCl. */
  twostate predicate Closed(session: FileSession, accept: bool)
    reads session
  {
    && session.State() == CloseNow(old(session.State()), accept).0 && session.Valid()
    && session.asked == FileSessions.Of(CloseNow(old(session.State()), accept).1)
  }

  class RunEngine {
    const cfg: RunConfig
    const bucket: TokenBucket
    const inflight: InFlightSemaphore
    const sched: Scheduler
    var ready: seq<nat>
    var live: int
    var stopPace: bool

    /** The shared state, for an engine thread that stands at `pc`. */
    ghost function State(pc: Pc): Engine
      reads this, bucket, inflight
    {
      Engine(pc, bucket.State(), inflight.max, inflight.current, live, stopPace, ready)
    }

    ghost predicate Valid()
      reads this, bucket, inflight
    {
      inflight.Valid() && bucket.State().Valid() && sched.cfg == cfg
    }

    constructor (cfg: RunConfig, now: real)
      ensures Valid() && this.cfg == cfg && fresh(bucket) && fresh(inflight) && fresh(sched)
      ensures State(Top) == Initial(cfg, now).e
    {
      this.cfg := cfg;
      bucket := new TokenBucket(cfg.rate, BucketCapacity(cfg), now);
      inflight := new InFlightSemaphore(cfg.maxInflight);
      sched := new Scheduler(cfg);
      ready := [];
      live := 0;
      stopPace := false;
    }

    // ---------------------------------------------------------------- the loop

    method ContinueOne(id: nat, v: View) returns (turn: Turn, wait: real)
      requires Valid()
      modifies this`ready, bucket
      ensures Valid()
      ensures turn == Continue(old(State(Top)), id, v).1
      ensures State(Continue(old(State(Top)), id, v).0.pc) == Continue(old(State(Top)), id, v).0
      ensures turn.Waiting? ==> wait == WaitFor(old(bucket.State()), v.next(id), v.now).1
    {
      ghost var b := bucket.State();
      wait := 0.0;
      if id in v.over {
        return Skipped(id), 0.0;
      }
      var n := v.next(id);
      if n == 0 {
        return Closing(id), 0.0;
      }
      RefillValid(b, v.now);
      var taken := bucket.TryAcquire(n, v.now);
      if !taken {
        ready := [id] + ready;
        AskAfterRefusal(b, n, v.now);
        WaitAfterRefusal(b, n, v.now);
        wait := bucket.SecondsUntil(n, v.now);
        return Waiting(id), wait;
      }
      return Issuing(id, n), 0.0;
    }

    method AdmitOne(v: View) returns (turn: Turn, wait: real)
      requires Valid() && !v.late && ready == []
      modifies this`live, bucket, inflight, sched
      ensures Valid()
      ensures turn == TurnOf(old(State(Top)), cfg, v).1
      ensures State(TurnOf(old(State(Top)), cfg, v).0.pc) == TurnOf(old(State(Top)), cfg, v).0
      ensures turn.NoTokens? ==> wait == WaitFor(old(bucket.State()), Item(cfg, v.pick).opBytes, v.now).1
    {
      ghost var b := bucket.State();
      RefillValid(b, v.now);
      wait := 0.0;
      if live >= cfg.maxInflight {
        return Idle, 0.0;
      }
      var slot := inflight.TryAcquire();
      if !slot {
        return NoSlot, 0.0;
      }
      var item := sched.Next(v.pick);
      var taken := bucket.TryAcquire(item.opBytes, v.now);
      if !taken {
        inflight.Release();
        AskAfterRefusal(b, item.opBytes, v.now);
        WaitAfterRefusal(b, item.opBytes, v.now);
        wait := bucket.SecondsUntil(item.opBytes, v.now);
        return NoTokens, wait;
      }
      live := live + 1;
      return Starting(item), 0.0;
    }

    /** One turn of the engine loop, while no other thread interferes. */
    method TakeTurn(v: View) returns (turn: Turn, wait: real)
      requires Valid()
      modifies this, bucket, inflight, sched
      ensures Valid()
      ensures turn == TurnOf(old(State(Top)), cfg, v).1
      ensures State(TurnOf(old(State(Top)), cfg, v).0.pc) == TurnOf(old(State(Top)), cfg, v).0
    {
      if v.late {
        stopPace := true;
        return Stopped, 0.0;
      }
      if |ready| > 0 {
        var id := ready[0];
        ready := ready[1..];
        turn, wait := ContinueOne(id, v);
      } else {
        turn, wait := AdmitOne(v);
      }
    }

    /** What the sweep needs of the parked sessions: they exist, and no two
        entries of the queue share one. */
    ghost predicate Sweepable(sessions: seq<FileSession>)
      reads this, sessions
    {
      && (forall i :: 0 <= i < |ready| ==> ready[i] < |sessions| && sessions[ready[i]].Valid())
      && (forall i, j :: 0 <= i < j < |ready| ==> sessions[ready[i]] != sessions[ready[j]])
    }

    /** The objects of the parked sessions. */
    ghost function Parked(sessions: seq<FileSession>): set<FileSession>
      requires forall i :: 0 <= i < |ready| ==> ready[i] < |sessions|
      reads this
    {
      set i | 0 <= i < |ready| :: sessions[ready[i]]
    }

    /** The sweep: CloseNow for everything parked, and an empty queue. `accept`
        stands for the answers of XrdCl. */
    method Sweep(sessions: seq<FileSession>, accept: nat -> bool)
      requires Valid() && stopPace && Sweepable(sessions)
      modifies this`ready, Parked(sessions)
      ensures Valid() && State(Drained) == old(State(Drained)).(ready := [])
      ensures forall i :: 0 <= i < |old(ready)| ==> Closed(sessions[old(ready)[i]], accept(old(ready)[i]))
    {
      hide CloseNow, FileSession.State;
      var i := 0;
      while i < |ready|
        invariant 0 <= i <= |ready| && ready == old(ready) && Sweepable(sessions)
        invariant bucket.State() == old(bucket.State()) && inflight.current == old(inflight.current)
        invariant forall j :: 0 <= j < i ==> Closed(sessions[ready[j]], accept(ready[j]))
        invariant forall j :: i <= j < |ready| ==> unchanged(sessions[ready[j]])
      {
        var session := sessions[ready[i]];
        session.CloseSoon(accept(ready[i]));
        i := i + 1;
      }
      ready := [];
    }

    // ---------------------------------------------------------------- callbacks

    /** on_ready, after its stop test: the queue moves as a push of the machine. */
    method Park(id: nat)
      requires Valid()
      modifies this`ready
      ensures Valid() && forall pc :: State(pc) == old(State(pc)).(ready := old(ready) + [id])
      ensures forall sys: System :: Known(sys) && Enabled(sys, Push(id)) && sys.e == old(State(sys.e.pc)) ==>
                State(sys.e.pc) == Step(sys, Push(id)).e
    {
      ready := ready + [id];
    }

    method OnRefund(n: nat, now: real)
      requires Valid()
      modifies bucket
      ensures Valid() && forall pc :: State(pc) == old(State(pc)).(bucket := PutBack(old(bucket.State()), n, now))
    {
      RefillValid(bucket.State(), now);
      bucket.Refund(n, now);
    }

    /** session_done after its report, first half. */
    method LowerLive()
      requires Valid()
      modifies this`live
      ensures Valid() && forall pc :: State(pc) == old(State(pc)).(live := old(live) - 1)
      ensures forall sys: System :: Known(sys) && Enabled(sys, LiveDown) && sys.e == old(State(sys.e.pc)) ==>
                State(sys.e.pc) == Step(sys, LiveDown).e
    {
      live := live - 1;
    }

    /** session_done after its report, second half. */
    method FreeSlot()
      requires Valid()
      modifies inflight
      ensures Valid() && forall pc :: State(pc) == ReleaseOne(old(State(pc)))
      ensures forall sys: System :: Known(sys) && Enabled(sys, ReleaseSlot) && sys.e == old(State(sys.e.pc)) ==>
                State(sys.e.pc) == Step(sys, ReleaseSlot).e
    {
      inflight.Release();
    }
  }

  // ---------------------------------------------------------------- a turn is a run

  /** The view tells the truth about the state and the clock. */
  ghost predicate Sees(v: View, sys: System, io: Io) {
    && (sys.e.pc.Top? ==> InTime(sys, io))
    && v.late == io.deadlinePassed && v.now == sys.now && v.pick == io.pick
    && (forall id: nat :: id < |sys.tracks| ==>
          (id in v.over <==> sys.tracks[id].s.completed) && v.next(id) == NextOpBytes(sys.tracks[id].s))
  }

  /** So many actions of the engine thread in a row. */
  function Acts(k: nat, io: Io): seq<Event> {
    if k == 0 then [] else [EngineAct(io)] + Acts(k - 1, io)
  }

  lemma OneAct(sys: System, io: Io)
    requires Inv(sys) && Known(sys) && Enabled(sys, EngineAct(io))
    ensures Inv(Step(sys, EngineAct(io))) && Known(Step(sys, EngineAct(io)))
  {
    StepKeeps(sys, EngineAct(io));
  }

  /** One action, and the rest from there. */
  lemma ActFirst(sys: System, io: Io, next: System, k: nat)
    requires Known(sys) && Enabled(sys, EngineAct(io)) && next == Step(sys, EngineAct(io)) && Legal(next, Acts(k, io))
    ensures Legal(sys, Acts(k + 1, io)) && After(sys, Acts(k + 1, io)) == After(next, Acts(k, io))
  {
    hide Known, Step;
    assert Acts(k + 1, io)[1..] == Acts(k, io);
  }

  /** The actions change nothing but the engine and the accounts. */
  ghost predicate SessionsKept(sys: System, next: System) {
    && |next.tracks| == |sys.tracks| && next.cfg == sys.cfg && next.now == sys.now
    && (forall id: nat :: id < |sys.tracks| ==>
          next.tracks[id].s == sys.tracks[id].s && next.tracks[id].owed == sys.tracks[id].owed)
    && next.parking == sys.parking && next.pushing == sys.pushing
  }

  /** From a popped continuation to the end of the turn. */
  lemma MayAct(sys: System, io: Io)
    requires sys.e.pc.Top? ==> InTime(sys, io)
    ensures Enabled(sys, EngineAct(io))
  {
  }

  lemma SkipAct(sys: System, io: Io)
    requires Known(sys) && sys.e.pc.Popped? && sys.e.pc.id < |sys.tracks| && Enabled(sys, EngineAct(io))
    requires sys.tracks[sys.e.pc.id].s.completed
    ensures Step(sys, EngineAct(io)) == Dispose(sys, sys.e.pc.id)
  {
    hide PayContinuation, PayAdmission, Touch, StartSession;
  }

  /** The first two actions on a continuation. */
  lemma PoppedActs(sys: System, io: Io)
    requires Known(sys) && sys.e.pc.Popped? && sys.e.pc.id < |sys.tracks|
    requires !sys.tracks[sys.e.pc.id].s.completed && Enabled(sys, EngineAct(io))
    ensures var id, next := sys.e.pc.id, At(sys, Unfinished(sys.e.pc.id));
            && Step(sys, EngineAct(io)) == next && Known(next) && Enabled(next, EngineAct(io))
            && Step(next, EngineAct(io)) == At(sys, Priced(id, NextOpBytes(sys.tracks[id].s)))
  {
    hide PayContinuation, PayAdmission, NextOpBytes, Touch, StartSession;
    var next := At(sys, Unfinished(sys.e.pc.id));
    assert Holds(next.e.pc, sys.e.pc.id);
  }

  /** The two actions that decide to admit. */
  lemma SeekActs(sys: System, io: Io)
    requires Known(sys) && sys.e.pc.Top? && sys.e.ready == [] && !io.deadlinePassed && Enabled(sys, EngineAct(io))
    ensures sys.e.live >= sys.cfg.maxInflight ==> Step(sys, EngineAct(io)) == sys
    ensures sys.e.live < sys.cfg.maxInflight ==>
              var next := At(sys, Seeking);
              && Step(sys, EngineAct(io)) == next && Known(next) && Enabled(next, EngineAct(io))
              && Step(next, EngineAct(io)) == At(sys, Wanting)
  {
    hide PayContinuation, PayAdmission, Touch, StartSession, InTime;
  }

  lemma ContinueIsRun(sys: System, v: View, io: Io) returns (k: nat)
    requires Inv(sys) && Known(sys) && sys.e.pc.Popped? && Sees(v, sys, io)
    ensures Legal(sys, Acts(k, io)) && SessionsKept(sys, After(sys, Acts(k, io)))
    ensures After(sys, Acts(k, io)).e == Continue(sys.e.(pc := Top), sys.e.pc.id, v).0
  {
    hide InTime, Inv, Enabled, Step, Take, NextOpBytes;
    var id := sys.e.pc.id;
    assert Holds(sys.e.pc, id);
    MayAct(sys, io);
    OneAct(sys, io);
    if sys.tracks[id].s.completed {
      k := 1;
      SkipAct(sys, io);
      ActFirst(sys, io, Dispose(sys, id), 0);
    } else {
      PoppedActs(sys, io);
      var s1, s2 := At(sys, Unfinished(id)), At(sys, Priced(id, v.next(id)));
      OneAct(s1, io);
      ActFirst(s1, io, s2, 0);
      ActFirst(sys, io, s1, 1);
      if v.next(id) == 0 {
        k := 2;
      } else {
        k := PayIsRun(s2, v, io);
        ActFirst(s1, io, s2, k);
        ActFirst(sys, io, s1, k + 1);
        k := k + 2;
      }
    }
  }

  lemma PayIsRun(sys: System, v: View, io: Io) returns (k: nat)
    requires Inv(sys) && Known(sys) && sys.e.pc.Priced? && sys.e.pc.n > 0 && v.now == sys.now
    ensures Legal(sys, Acts(k, io)) && SessionsKept(sys, After(sys, Acts(k, io)))
    ensures var (bucket, taken) := Take(sys.e.bucket, sys.e.pc.n, v.now);
            After(sys, Acts(k, io)).e
            == if taken then sys.e.(bucket := bucket, pc := Paid(sys.e.pc.id, sys.e.pc.n))
               else sys.e.(bucket := bucket, ready := [sys.e.pc.id] + sys.e.ready, pc := Top)
  {
    hide InTime, Inv, PayAdmission, Take, NextOpBytes, Touch, StartSession;
    assert Holds(sys.e.pc, sys.e.pc.id);
    OneAct(sys, io);
    var s1 := Step(sys, EngineAct(io));
    if s1.e.pc.Paid? {
      k := 1;
      ActFirst(sys, io, s1, 0);
    } else {
      OneAct(s1, io);
      var s2 := Step(s1, EngineAct(io));
      k := 2;
      ActFirst(s1, io, s2, 0);
      ActFirst(sys, io, s1, 1);
    }
  }

  /** From the known work item to the end of the turn. */
  lemma ChargeIsRun(sys: System, io: Io) returns (k: nat)
    requires Inv(sys) && Known(sys) && sys.e.pc.Drawn?
    ensures Legal(sys, Acts(k, io)) && SessionsKept(sys, After(sys, Acts(k, io)))
    ensures var (bucket, taken) := Take(sys.e.bucket, sys.e.pc.item.opBytes, sys.now);
            After(sys, Acts(k, io)).e
            == if taken then sys.e.(bucket := bucket, live := sys.e.live + 1, pc := Admitted(sys.e.pc.item))
               else ReleaseOne(sys.e).(bucket := bucket, pc := Top)
  {
    hide InTime, Inv, Known, PayContinuation, Take, Item, Touch, StartSession, NextOpBytes;
    OneAct(sys, io);
    var s1 := Step(sys, EngineAct(io));
    assert s1 == PayAdmission(sys, sys.e.pc.item);
    OneAct(s1, io);
    var s2 := Step(s1, EngineAct(io));
    k := 2;
    ActFirst(s1, io, s2, 0);
    ActFirst(sys, io, s1, 1);
  }

  /** From a free slot to the end of the turn. */
  lemma AdmitIsRun(sys: System, v: View, io: Io) returns (k: nat)
    requires Inv(sys) && Known(sys) && sys.e.pc.Slotted? && v.now == sys.now && v.pick == io.pick
    ensures Legal(sys, Acts(k, io)) && SessionsKept(sys, After(sys, Acts(k, io)))
    ensures var item := Item(sys.cfg, v.pick);
            var (bucket, taken) := Take(sys.e.bucket, item.opBytes, v.now);
            After(sys, Acts(k, io)).e
            == if taken then sys.e.(bucket := bucket, live := sys.e.live + 1, pc := Admitted(item))
               else ReleaseOne(sys.e).(bucket := bucket, pc := Top)
  {
    hide InTime, Inv, Known, PayContinuation, PayAdmission, Take, Item, Touch, StartSession, NextOpBytes, ReleaseOne;
    OneAct(sys, io);
    var s1 := Step(sys, EngineAct(io));
    assert s1 == At(sys, Drawn(Item(sys.cfg, io.pick)));
    k := ChargeIsRun(s1, io);
    ActFirst(sys, io, s1, k);
    k := k + 1;
    SameExceptPc(sys, Drawn(Item(sys.cfg, io.pick)));
  }

  lemma SameExceptPc(sys: System, pc: Pc)
    ensures ReleaseOne(At(sys, pc).e).slots == ReleaseOne(sys.e).slots
    ensures ReleaseOne(sys.e) == sys.e.(slots := ReleaseOne(sys.e).slots)
    ensures ReleaseOne(At(sys, pc).e) == At(sys, pc).e.(slots := ReleaseOne(sys.e).slots)
  {
  }

  /** From the decision to admit to the end of the turn. */
  lemma WantIsRun(sys: System, v: View, io: Io) returns (k: nat)
    requires Inv(sys) && Known(sys) && sys.e.pc.Wanting? && v.now == sys.now && v.pick == io.pick
    ensures Legal(sys, Acts(k, io)) && SessionsKept(sys, After(sys, Acts(k, io)))
    ensures var item := Item(sys.cfg, v.pick);
            var (bucket, taken) := Take(sys.e.bucket, item.opBytes, v.now);
            After(sys, Acts(k, io)).e
            == if sys.e.slots >= sys.e.max then sys.e.(pc := Top)
               else if taken then
                 sys.e.(bucket := bucket, slots := sys.e.slots + 1, live := sys.e.live + 1, pc := Admitted(item))
               else sys.e.(bucket := bucket, pc := Top)
  {
    hide InTime, Inv, Known, PayContinuation, PayAdmission, NextOpBytes, Take, Item, Touch, StartSession;
    OneAct(sys, io);
    var s1 := Step(sys, EngineAct(io));
    if sys.e.slots >= sys.e.max {
      assert s1 == At(sys, Top);
      k := 0;
    } else {
      assert s1 == sys.(e := sys.e.(slots := sys.e.slots + 1, pc := Slotted));
      k := AdmitIsRun(s1, v, io);
    }
    ActFirst(sys, io, s1, k);
    k := k + 1;
  }

  /** From the top of the loop with nothing to continue. */
  lemma SeekIsRun(sys: System, v: View, io: Io) returns (k: nat)
    requires Inv(sys) && Known(sys) && sys.e.pc.Top? && sys.e.ready == [] && !v.late && !io.deadlinePassed
    requires v.now == sys.now && v.pick == io.pick && InTime(sys, io)
    ensures k > 0 && Legal(sys, Acts(k, io)) && SessionsKept(sys, After(sys, Acts(k, io)))
    ensures After(sys, Acts(k, io)).e == TurnOf(sys.e, sys.cfg, v).0
  {
    hide InTime, Inv, Known, Enabled, Step, Take, Item;
    MayAct(sys, io);
    SeekActs(sys, io);
    OneAct(sys, io);
    if sys.e.live >= sys.cfg.maxInflight {
      k := 1;
      ActFirst(sys, io, sys, 0);
    } else {
      var s1, s2 := At(sys, Seeking), At(sys, Wanting);
      OneAct(s1, io);
      k := WantIsRun(s2, v, io);
      ActFirst(s1, io, s2, k);
      ActFirst(sys, io, s1, k + 1);
      k := k + 2;
    }
  }

  /** The loop refines the machine: a turn of the loop in which nobody
      interferes ends in the engine state that a run of atomic engine actions
      reaches, with every session left as it was. */
  lemma TurnIsRun(sys: System, v: View, io: Io) returns (k: nat)
    requires Inv(sys) && Known(sys) && sys.e.pc.Top? && Sees(v, sys, io)
    ensures k > 0 && Legal(sys, Acts(k, io)) && SessionsKept(sys, After(sys, Acts(k, io)))
    ensures After(sys, Acts(k, io)).e == TurnOf(sys.e, sys.cfg, v).0
  {
    hide InTime, Inv, Take, Item, Touch, StartSession, NextOpBytes, Continue;
    OneAct(sys, io);
    var s1 := Step(sys, EngineAct(io));
    if v.late {
      k := 1;
      ActFirst(sys, io, s1, 0);
    } else if sys.e.ready == [] {
      k := SeekIsRun(sys, v, io);
    } else {
      k := ContinueIsRun(s1, v, io);
      ActFirst(sys, io, s1, k);
      k := k + 1;
    }
  }
}
