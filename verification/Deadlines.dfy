/** When the watchdog fires: not before the timeout after the last operation a
    session submitted, and for a parked session only if a reply overtook it. */
module Deadlines {
  import opened Prelude
  import opened TokenBuckets
  import opened RunConfigs
  import opened Schedulers
  import opened SessionSpec
  import opened SessionLedger
  import opened EngineSpec
  import opened EngineInvariants
  import opened EngineSteps
  import opened EngineRuns
  import opened Effects
  import opened HungDrains
  import opened Watchdogs
  import opened TokenWaits

  // ---------------------------------------------------------------- submissions and deadlines

  /** Every deadline put into the table is the instant of the step plus the
      configured timeout. */
  ghost predicate Punctual(sys: System, ms: seq<Moment>)
    requires LegalTogether(sys, ms)
    decreases |ms|
  {
    ms == [] || (
      match ms[0]
      case Act(ev, deadline, _) =>
        deadline == sys.now + sys.cfg.sessionTimeout && Punctual(Step(sys, ev), ms[1..])
      case Scan(_, _) => Punctual(sys, ms[1..]))
  }

  /** When XrdCl last accepted an operation of each session. */
  ghost function StampsThen(sys: System, ev: Event, stamps: map<nat, real>): map<nat, real>
    requires Known(sys) && Enabled(sys, ev)
  {
    var effect := EffectOf(sys, ev);
    if Asks(sys, effect).accepted.Some? then stamps[Subject(sys, effect) := sys.now] else stamps
  }

  ghost function Stamps(sys: System, ms: seq<Moment>, stamps: map<nat, real>): map<nat, real>
    requires LegalTogether(sys, ms)
    decreases |ms|
  {
    if ms == [] then stamps
    else
      match ms[0]
      case Act(ev, _, _) => Stamps(Step(sys, ev), ms[1..], StampsThen(sys, ev, stamps))
      case Scan(_, _) => Stamps(sys, ms[1..], stamps)
  }

  /** A session for which a callback is owed has submitted something; only
      sessions with a deadline are in the table, and none falls due before the
      timeout after its last accepted submission. */
  ghost predicate Timely(sys: System, table: seq<Entry>, stamps: map<nat, real>) {
    && (forall x: nat :: x < |sys.tracks| && sys.tracks[x].owed.Total() > 0 ==> x in stamps)
    && (forall x :: x in stamps ==> stamps[x] <= sys.now)
    && (forall e :: e in table ==> e.session < |sys.tracks| && sys.tracks[e.session].s.opts.deadline)
    && (forall e :: e in table && e.session in stamps ==>
          stamps[e.session] + sys.cfg.sessionTimeout <= e.deadline)
    && (forall e :: e in table ==> e.deadline <= sys.now + sys.cfg.sessionTimeout)
  }

  /** Every accepted submission arms the deadline of a session that has one, and
      nothing arms it for a session that has none. */
  predicate ArmsRight(s: Session, out: (Session, Fx)) {
    && out.0.opts == s.opts && (out.1.accepted.Some? ==> out.1.table == ArmOf(s))
    && (out.1.table == Arm ==> s.opts.deadline)
  }

  lemma CloseArms(s: Session, accept: bool)
    ensures ArmsRight(s, SubmitClose(s, accept))
  {
  }

  lemma IssueArms(s: Session, accept: bool, draws: seq<nat>)
    ensures ArmsRight(s, IssueNext(s, accept, draws))
  {
    hide SubmitClose, ReadList, TotalLen;
    if s.completed {
    } else if s.timedOut || s.remaining == 0 {
      CloseArms(DropPrepaid(if s.timedOut then s.(remaining := 0) else s), accept);
    } else if accept {
    } else {
    }
  }

  lemma OpenArms(s: Session, ok: bool, accept: bool)
    ensures ArmsRight(s, OnOpen(s, ok, accept))
  {
    hide SubmitClose;
    CloseArms(s.(pending := s.pending - 1), accept);
  }

  lemma PlanKeepsOptions(s: Session, size: nat)
    ensures Planned(s, size).opts == s.opts
  {
  }

  lemma StatArmsHere(s: Session, size: nat, accept: bool, draws: seq<nat>)
    requires !s.completed && Plannable(s.opts, size)
    ensures ArmsRight(s, OnStat(s, true, size, accept, draws))
  {
    hide OnStat, IssueNext, Planned;
    StatIssues(s, size, accept, draws);
    PlanKeepsOptions(s, size);
    IssueArms(Planned(s, size), accept, draws);
  }

  lemma StatArms(s: Session, ok: bool, size: nat, accept: bool, draws: seq<nat>)
    ensures ArmsRight(s, OnStat(s, ok, size, accept, draws))
  {
    hide IssueNext;
    if s.completed {
    } else if !ok {
    } else if Plannable(s.opts, size) {
      StatArmsHere(s, size, accept, draws);
    } else {
    }
  }

  lemma ReadArms(s: Session, ok: bool, got: nat, accept: bool, draws: seq<nat>)
    ensures ArmsRight(s, OnRead(s, ok, got, accept, draws))
  {
    hide IssueNext;
    IssueArms(Absorb(s.(pending := s.pending - 1), got), accept, draws);
  }

  lemma CloseReplyArms(s: Session, ok: bool)
    ensures ArmsRight(s, OnClose(s, ok))
  {
  }

  lemma AskArms(s: Session, accept: bool)
    ensures ArmsRight(s, RequestWallTimeout(s, accept)) && ArmsRight(s, CloseNow(s, accept))
  {
    hide SubmitClose;
    CloseArms(s.(timedOut := true), accept);
    CloseArms(s.(remaining := 0), accept);
  }

  lemma EngineArms(s: Session, accept: bool, draws: seq<nat>)
    ensures ArmsRight(s, IssueNextFromEngine(s, accept, draws))
  {
    hide IssueNext;
    IssueArms(s, accept, draws);
  }

  lemma HandlerArms(s: Session, h: Handler)
    ensures ArmsRight(s, Handle(s, h))
  {
    hide ArmsRight, OnOpen, OnStat, OnRead, OnClose, RequestWallTimeout, CloseNow, IssueNextFromEngine;
    match h {
      case OpenReply(ok, accept) => OpenArms(s, ok, accept);
      case StatReply(ok, size, accept, draws) => StatArms(s, ok, size, accept, draws);
      case ReadReply(ok, got, accept, draws) => ReadArms(s, ok, got, accept, draws);
      case CloseReply(ok) => CloseReplyArms(s, ok);
      case WallTimeout(accept) => AskArms(s, accept);
      case EngineIssue(_, accept, draws) => EngineArms(s, accept, draws);
      case EngineClose(accept) => AskArms(s, accept);
    }
  }

  /** What a step does to the session it acts on, as far as deadlines go. */
  lemma SubjectArms(sys: System, next: System, effect: Effect)
    requires Applies(sys, effect) && Moves(sys, next, effect) && !effect.NoEffect?
    ensures var id, fx := Subject(sys, effect), Asks(sys, effect);
            && id < |next.tracks| && (fx.table == Arm ==> next.tracks[id].s.opts.deadline)
            && (effect.Runs? ==> next.tracks[id].s.opts == sys.tracks[id].s.opts)
            && (fx.accepted.Some? && fx.table != Arm ==> !next.tracks[id].s.opts.deadline)
            && (next.tracks[id].owed.Total() > 0 && fx.accepted == None ==>
                  effect.Runs? && sys.tracks[id].owed.Total() > 0)
  {
    hide Handle;
    if effect.Runs? {
      HandlerArms(sys.tracks[effect.id].s, effect.h);
    }
  }

  lemma {:induction false} ArmedEntries(es: seq<Entry>, w: World, session: nat, deadline: real)
    requires OnePerSession(es) && session in w.alive
    ensures forall e :: e in Armed(es, w, session, deadline) ==>
              e == Entry(deadline, session) || (e in es && e.session != session)
    decreases |es|
  {
    if es != [] && es[0].session != session {
      ArmedEntries(es[1..], w, session, deadline);
    }
  }

  /** After a step the table holds what it held for other sessions, and for the
      subject either what it held or a fresh deadline. */
  lemma EntriesThen(table: seq<Entry>, id: nat, ask: Table, w: World, deadline: real)
    requires OnePerSession(table) && id in w.alive
    ensures var after := TableAfter(table, id, ask, w, deadline);
            forall e :: e in after ==>
              (e in table && (e.session == id ==> ask == Keep)) || (e == Entry(deadline, id) && ask == Arm)
  {
    hide OnePerSession, Armed, Disarmed;
    if ask == Arm {
      ArmedEntries(table, w, id, deadline);
    } else if ask == Disarm {
      DisarmedRemovesOne(table, w, id);
    }
  }

  lemma MovesTimely(sys: System, next: System, effect: Effect, table: seq<Entry>, stamps: map<nat, real>,
                    w: World, deadline: real)
    requires Applies(sys, effect) && Moves(sys, next, effect) && OnePerSession(table) && Timely(sys, table, stamps)
    requires next.now >= sys.now && next.cfg == sys.cfg && deadline == sys.now + sys.cfg.sessionTimeout
    requires !effect.NoEffect? ==> Subject(sys, effect) in w.alive
    ensures var id, fx := Subject(sys, effect), Asks(sys, effect);
            Timely(next, TableAfter(table, id, fx.table, w, deadline),
                   if fx.accepted.Some? then stamps[id := sys.now] else stamps)
  {
    hide OnePerSession, TableAfter, Possible, Advance, Begin;
    if effect.NoEffect? {
      assert TableAfter(table, Subject(sys, effect), Keep, w, deadline) == table by {
        KeepTable(table, Subject(sys, effect), w, deadline);
      }
    } else {
      SubjectArms(sys, next, effect);
      EntriesThen(table, Subject(sys, effect), Asks(sys, effect).table, w, deadline);
    }
  }

  lemma KeepTable(table: seq<Entry>, id: nat, w: World, deadline: real)
    ensures TableAfter(table, id, Keep, w, deadline) == table
  {
  }

  lemma TouchNow(mid: System, id: nat, h: Handler)
    requires id < |mid.tracks| && Possible(mid.tracks[id], h)
    ensures Touch(mid, id, h).now == mid.now
  {
    hide Advance, Possible, PutBack;
  }

  lemma EngineNow(sys: System, io: Io)
    requires Known(sys)
    ensures EngineStep(sys, io).now == sys.now
  {
    hide Touch, Begin, PutBack, Take;
    match sys.e.pc {
      case Priced(id, n) =>
        assert Holds(sys.e.pc, id);
        TouchNow(Dispose(sys, id), id, EngineClose(io.accept));
      case Paid(id, n) =>
        assert Holds(sys.e.pc, id);
        TouchNow(Dispose(sys, id), id, EngineIssue(n, io.accept, io.draws));
      case Sweeping =>
        if |sys.e.ready| > 0 {
          var id := sys.e.ready[0];
          TouchNow(sys.(e := sys.e.(ready := sys.e.ready[1..]), disposed := sys.disposed + [id]), id,
                   EngineClose(io.accept));
        }
      case _ =>
    }
  }

  lemma StepLasts(sys: System, ev: Event)
    requires Known(sys) && Enabled(sys, ev)
    ensures Step(sys, ev).now >= sys.now && Step(sys, ev).cfg == sys.cfg
  {
    hide Touch, EngineStep;
    StepConstants(sys, ev);
    match ev {
      case Callback(id, h) => TouchNow(sys, id, h);
      case CheckStop(id, accept) =>
        TouchNow(sys.(parking := sys.parking - multiset{id}), id, EngineClose(accept));
      case EngineAct(io) => EngineNow(sys, io);
      case _ =>
    }
  }

  lemma {:induction false} TableStaysTimely(sys: System, table: seq<Entry>, ms: seq<Moment>, stamps: map<nat, real>)
    requires Inv(sys) && Known(sys) && Covered(sys, table) && Timely(sys, table, stamps)
    requires LegalTogether(sys, ms) && Punctual(sys, ms)
    ensures var (s, t) := AfterTogether(sys, table, ms);
            OnePerSession(t) && Timely(s, t, Stamps(sys, ms, stamps))
    decreases |ms|
  {
    hide Inv, Known, Enabled, Step, Covered, Timely, EffectOf, TableAfter, Unexpired, Asks, Moves, Reports, Marks;
    CoveredOne(sys, table);
    if ms != [] {
      match ms[0] {
        case Act(ev, deadline, w) =>
          var next, effect := Step(sys, ev), EffectOf(sys, ev);
          StepKeeps(sys, ev);
          StepMarks(sys, ev);
          MarksCover(sys, next, effect, table, w, deadline);
          StepDoes(sys, ev);
          StepLasts(sys, ev);
          MovesTimely(sys, next, effect, table, stamps, w, deadline);
          TableStaysTimely(next, TableThen(sys, table, ev, w, deadline), ms[1..], StampsThen(sys, ev, stamps));
        case Scan(now, w) =>
          KeptCovered(sys, table, w, now);
          KeptTimely(sys, table, stamps, w, now);
          TableStaysTimely(sys, Unexpired(table, w, now), ms[1..], stamps);
      }
    }
  }

  lemma KeptTimely(sys: System, table: seq<Entry>, stamps: map<nat, real>, w: World, now: real)
    requires OnePerSession(table) && Timely(sys, table, stamps)
    ensures Timely(sys, Unexpired(table, w, now), stamps)
  {
    hide Unexpired, OnePerSession, HasEntry;
    ScanKeeps(table, w, now);
  }

  lemma NothingTimely(sys: System)
    requires sys.tracks == []
    ensures Timely(sys, [], map[])
  {
  }

  /** A scan fires for an unfinished session only if its last accepted operation
      lies at least the session timeout back. */
  lemma FiresOnlyAfterTimeout(cfg: RunConfig, start: real, ms: seq<Moment>, w: World, now: real, id: nat)
    requires Sane(cfg) && LegalTogether(Initial(cfg, start), ms) && Punctual(Initial(cfg, start), ms)
    ensures var first := Initial(cfg, start);
            var ((sys, table), stamps) := (AfterTogether(first, [], ms), Stamps(first, ms, map[]));
            id in Fired(table, w, now) ==>
              && id < |sys.tracks|
              && (!sys.tracks[id].s.completed ==> id in stamps)
              && (id in stamps ==> stamps[id] + cfg.sessionTimeout <= now)
  {
    hide Inv, Known, Covered, Timely, LegalTogether, Punctual, AfterTogether, Stamps;
    var first := Initial(cfg, start);
    InitialInv(cfg, start);
    InvKnown(first);
    NothingCovered(first);
    NothingTimely(first);
    TableStaysCovered(first, [], ms);
    TableStaysTimely(first, [], ms, map[]);
    TogetherConstants(first, [], ms);
    var (sys, table) := AfterTogether(first, [], ms);
    if id in Fired(table, w, now) {
      FiredHasEntry(sys, table, w, now, id);
      EntryMeansPending(sys, id);
      FiredIsDue(sys, table, Stamps(first, ms, map[]), w, now, id);
    }
  }

  lemma FiredIsDue(sys: System, table: seq<Entry>, stamps: map<nat, real>, w: World, now: real, id: nat)
    requires OnePerSession(table) && Timely(sys, table, stamps) && id in Fired(table, w, now) && id < |sys.tracks|
    ensures id in stamps ==> stamps[id] + sys.cfg.sessionTimeout <= now
    ensures sys.tracks[id].owed.Total() > 0 ==> id in stamps
  {
    hide Fired, OnePerSession;
    ScanFires(table, w, now);
  }

  lemma {:induction false} TogetherConstants(sys: System, table: seq<Entry>, ms: seq<Moment>)
    requires LegalTogether(sys, ms)
    ensures AfterTogether(sys, table, ms).0.cfg == sys.cfg
    decreases |ms|
  {
    hide Known, Enabled, Step, EffectOf, TableThen, Unexpired;
    if ms != [] {
      match ms[0] {
        case Act(ev, deadline, w) =>
          StepLasts(sys, ev);
          TogetherConstants(Step(sys, ev), TableThen(sys, table, ev, w, deadline), ms[1..]);
        case Scan(now, w) => TogetherConstants(sys, Unexpired(table, w, now), ms[1..]);
      }
    }
  }

  // ---------------------------------------------------------------- between the scan and the request

  ghost predicate NoReplyTo(id: nat, evs: seq<Event>) {
    forall i :: 0 <= i < |evs| ==> !(evs[i].Callback? && evs[i].id == id && evs[i].h.Reply())
  }

  lemma PendingStep(sys: System, ev: Event, id: nat)
    requires Known(sys) && Enabled(sys, ev) && id < |sys.tracks| && sys.tracks[id].owed.Total() > 0
    requires !(ev.Callback? && ev.id == id && ev.h.Reply())
    ensures id < |Step(sys, ev).tracks| && Step(sys, ev).tracks[id].owed.Total() > 0
  {
    hide Step, Reports, Handle, Possible;
    StepDoes(sys, ev);
    if EffectOf(sys, ev).Runs? {
      assert ev.Callback? || EffectOf(sys, ev).h.Custodial();
    }
  }

  lemma {:induction false} PendingStays(sys: System, evs: seq<Event>, id: nat)
    requires Inv(sys) && Known(sys) && Legal(sys, evs) && NoReplyTo(id, evs)
    requires id < |sys.tracks| && sys.tracks[id].owed.Total() > 0
    ensures Inv(After(sys, evs)) && id < |After(sys, evs).tracks| && After(sys, evs).tracks[id].owed.Total() > 0
    decreases |evs|
  {
    hide Inv, Known, Enabled, Step;
    if evs != [] {
      assert !(evs[0].Callback? && evs[0].id == id && evs[0].h.Reply());
      PendingStep(sys, evs[0], id);
      StepKeeps(sys, evs[0]);
      assert NoReplyTo(id, evs[1..]);
      PendingStays(Step(sys, evs[0]), evs[1..], id);
    }
  }

  /** The request to time out follows the scan after the lock is released. It
      meets a session that had not timed out parked, or with nothing pending,
      only if a reply to that session was delivered in between. */
  lemma FiresParkedOnlyAfterReply(cfg: RunConfig, start: real, ms: seq<Moment>, w: World, now: real, id: nat,
                                  evs: seq<Event>)
    requires Sane(cfg) && LegalTogether(Initial(cfg, start), ms)
    ensures var (sys, table) := AfterTogether(Initial(cfg, start), [], ms);
            id in Fired(table, w, now) ==>
              && id < |sys.tracks|
              && (!sys.tracks[id].s.completed && Legal(sys, evs) && NoReplyTo(id, evs) ==>
                    var later := After(sys, evs);
                    && id < |later.tracks| && later.tracks[id].owed.Total() > 0
                    && (Places(later, id) == 1 && !later.tracks[id].s.completed ==> later.tracks[id].s.timedOut))
  {
    hide Inv, Known, Covered, LegalTogether, AfterTogether, Legal, After, NoReplyTo, Places;
    var first := Initial(cfg, start);
    InitialInv(cfg, start);
    InvKnown(first);
    NothingCovered(first);
    TableStaysCovered(first, [], ms);
    var (sys, table) := AfterTogether(first, [], ms);
    InvMeansKnown(sys);
    if id in Fired(table, w, now) {
      FiredHasEntry(sys, table, w, now, id);
      EntryMeansPending(sys, id);
      if !sys.tracks[id].s.completed && Legal(sys, evs) && NoReplyTo(id, evs) {
        PendingStays(sys, evs, id);
        OwedNotParked(After(sys, evs), id);
      }
    }
  }

  lemma InvMeansKnown(sys: System)
    requires Inv(sys)
    ensures Known(sys)
  {
    InvKnown(sys);
  }

  lemma OwedNotParked(sys: System, id: nat)
    requires Inv(sys) && id < |sys.tracks| && sys.tracks[id].owed.Total() > 0
    ensures Places(sys, id) == 1 && !sys.tracks[id].s.completed ==> sys.tracks[id].s.timedOut
  {
    hide Ledger, Counts, Layout, BucketOk, SlotsOk, TokensOk, OrderOk, PriceOk, Places, PaidTo;
    assert TrackOk(sys, id);
  }

  // ---------------------------------------------------------------- a request that comes too late

  /** The first n sessions exist, and none of them is over. */
  function Everyone(n: nat): World {
    World(Below(n), {})
  }

  function Below(n: nat): (ids: set<nat>)
    ensures forall i: nat :: i in ids <==> i < n
  {
    if n == 0 then {} else Below(n - 1) + {n - 1}
  }

  /** The run, with the table kept beside it and no scan. */
  ghost function Alongside(sys: System, evs: seq<Event>, n: nat): seq<Moment>
    requires Legal(sys, evs)
    decreases |evs|
  {
    if evs == [] then []
    else [Act(evs[0], sys.now + sys.cfg.sessionTimeout, Everyone(n))] + Alongside(Step(sys, evs[0]), evs[1..], n)
  }

  /** Every armed session has its entry. */
  ghost predicate Listed(sys: System, table: seq<Entry>) {
    forall x: nat :: x < |sys.tracks| && sys.tracks[x].entry ==> HasEntry(table, x)
  }

  lemma MarksList(sys: System, next: System, effect: Effect, table: seq<Entry>, n: nat, deadline: real)
    requires Applies(sys, effect) && Covered(sys, table) && Listed(sys, table) && Marks(sys, next, effect)
    requires |next.tracks| <= n && |next.tracks| == |sys.tracks| + (if effect.Starts? then 1 else 0)
    ensures !effect.NoEffect? ==> Subject(sys, effect) in Everyone(n).alive
    ensures Listed(next, TableAfter(table, Subject(sys, effect), Asks(sys, effect).table, Everyone(n), deadline))
  {
    hide Armed, Disarmed, OnePerSession, HasEntry, Advance, Begin, Possible;
    var id, ask := Subject(sys, effect), Asks(sys, effect).table;
    if ask == Arm {
      ArmedMovesOne(table, Everyone(n), id, deadline);
    } else if ask == Disarm {
      DisarmedRemovesOne(table, Everyone(n), id);
    }
  }

  lemma {:induction false} TracksGrow(sys: System, evs: seq<Event>)
    requires Legal(sys, evs)
    ensures |sys.tracks| <= |After(sys, evs).tracks|
    decreases |evs|
  {
    hide Known, Enabled, Step, EffectOf, Reports;
    if evs != [] {
      StepDoes(sys, evs[0]);
      TracksGrow(Step(sys, evs[0]), evs[1..]);
    }
  }

  lemma {:induction false} AlongsideRun(sys: System, table: seq<Entry>, evs: seq<Event>, n: nat)
    requires Inv(sys) && Known(sys) && Legal(sys, evs) && Covered(sys, table) && Listed(sys, table)
    requires |After(sys, evs).tracks| <= n
    ensures var ms := Alongside(sys, evs, n);
            && LegalTogether(sys, ms) && Punctual(sys, ms) && AfterTogether(sys, table, ms).0 == After(sys, evs)
            && Listed(After(sys, evs), AfterTogether(sys, table, ms).1)
    decreases |evs|
  {
    hide Inv, Known, Enabled, Step, Covered, Listed, Marks, EffectOf, TableAfter, Asks, Reports, Everyone;
    if evs != [] {
      var next, effect := Step(sys, evs[0]), EffectOf(sys, evs[0]);
      var deadline := sys.now + sys.cfg.sessionTimeout;
      StepKeeps(sys, evs[0]);
      StepDoes(sys, evs[0]);
      StepMarks(sys, evs[0]);
      TracksGrow(next, evs[1..]);
      MarksList(sys, next, effect, table, n, deadline);
      MarksCover(sys, next, effect, table, Everyone(n), deadline);
      AlongsideRun(next, TableThen(sys, table, evs[0], Everyone(n), deadline), evs[1..], n);
      var ms, rest := Alongside(sys, evs, n), Alongside(next, evs[1..], n);
      assert ms[0] == Act(evs[0], deadline, Everyone(n)) && ms[1..] == rest;
    }
  }

  /** Nothing happens for `dt` seconds. */
  function Pause(sys: System, dt: real, n: nat): Moment {
    Act(Tick(dt), sys.now + sys.cfg.sessionTimeout, Everyone(n))
  }

  lemma OnePause(sys: System, table: seq<Entry>, dt: real, n: nat)
    requires Known(sys) && dt >= 0.0
    ensures var ms := [Pause(sys, dt, n)];
            && LegalTogether(sys, ms) && Punctual(sys, ms)
            && AfterTogether(sys, table, ms) == (sys.(now := sys.now + dt), table)
  {
    hide Known;
    var ms, next := [Pause(sys, dt, n)], Step(sys, Tick(dt));
    assert ms[1..] == [] && LegalTogether(next, []) && Punctual(next, []);
    assert TableThen(sys, table, Tick(dt), Everyone(n), sys.now + sys.cfg.sessionTimeout) == table;
    assert AfterTogether(next, table, []) == (next, table);
  }

  lemma {:induction false} ThenPause(sys: System, table: seq<Entry>, ms: seq<Moment>, dt: real, n: nat)
    requires LegalTogether(sys, ms) && Punctual(sys, ms) && Known(AfterTogether(sys, table, ms).0) && dt >= 0.0
    ensures var (s, t) := AfterTogether(sys, table, ms);
            var more := ms + [Pause(s, dt, n)];
            && LegalTogether(sys, more) && Punctual(sys, more)
            && AfterTogether(sys, table, more) == (s.(now := s.now + dt), t)
    decreases |ms|
  {
    hide Known, Enabled, Step, EffectOf, TableThen, Unexpired, Pause;
    var last := AfterTogether(sys, table, ms).0;
    if ms == [] {
      OnePause(sys, table, dt, n);
      assert ms + [Pause(last, dt, n)] == [Pause(last, dt, n)];
    } else {
      var more := ms + [Pause(last, dt, n)];
      assert more[0] == ms[0] && more[1..] == ms[1..] + [Pause(last, dt, n)];
      match ms[0] {
        case Act(ev, deadline, w) =>
          ThenPause(Step(sys, ev), TableThen(sys, table, ev, w, deadline), ms[1..], dt, n);
        case Scan(now, w) => ThenPause(sys, Unexpired(table, w, now), ms[1..], dt, n);
      }
    }
  }

  lemma ListedFires(sys: System, table: seq<Entry>, stamps: map<nat, real>, n: nat, now: real, id: nat)
    requires OnePerSession(table) && Listed(sys, table) && Timely(sys, table, stamps)
    requires id < |sys.tracks| && id < n && sys.tracks[id].entry && sys.now + sys.cfg.sessionTimeout <= now
    ensures id in Fired(table, Everyone(n), now)
  {
    hide Fired, OnePerSession;
    ScanFires(table, Everyone(n), now);
    assert HasEntry(table, id);
    var i :| 0 <= i < |table| && table[i].session == id;
    assert table[i] in table && Everyone(n).Expired(table[i], now);
  }

  /** A scan fires for an open session, and the reply it waited for reaches the
      session before the request does: the request finds it parked. */
  ghost predicate MeetsParked(sys: System, table: seq<Entry>, w: World, id: nat, h: Handler) {
    && Known(sys) && id < |sys.tracks| && Enabled(sys, Callback(id, h)) && h.Reply()
    && id in Fired(table, w, sys.now) && !sys.tracks[id].s.completed && !sys.tracks[id].s.timedOut
    && var parked := Step(sys, Callback(id, h));
       && id < |parked.tracks| && parked.parking[id] > 0
       && !parked.tracks[id].s.completed && !parked.tracks[id].s.timedOut
  }

  /** Any reachable state, with the table kept beside the run. */
  lemma WithTable(cfg: RunConfig, sys: System, n: nat) returns (start: real, ms: seq<Moment>, stamps: map<nat, real>)
    requires Sane(cfg) && Reachable(cfg, sys) && |sys.tracks| <= n
    ensures LegalTogether(Initial(cfg, start), ms) && Punctual(Initial(cfg, start), ms)
    ensures var (s, table) := AfterTogether(Initial(cfg, start), [], ms);
            s == sys && OnePerSession(table) && Listed(sys, table) && Timely(sys, table, stamps)
  {
    hide Inv, Known, Covered, Timely, Listed, Punctual, Stamps, LegalTogether, AfterTogether, Legal, After;
    var evs: seq<Event>;
    start, evs :| Legal(Initial(cfg, start), evs) && sys == After(Initial(cfg, start), evs);
    var first := Initial(cfg, start);
    InitialInv(cfg, start);
    InvKnown(first);
    NothingCovered(first);
    NothingTimely(first);
    AlongsideRun(first, [], evs, n) by {
      NothingListed(first);
    }
    ms := Alongside(first, evs, n);
    TableStaysTimely(first, [], ms, map[]);
    stamps := Stamps(first, ms, map[]);
  }

  lemma NothingListed(sys: System)
    requires sys.tracks == []
    ensures Listed(sys, [])
  {
  }

  lemma MeetsAfterPause(sys: System, table: seq<Entry>, stamps: map<nat, real>, t: Track, h: Handler)
    requires Known(sys) && OnlySession(sys, t) && AboutToPark(t, h) && t.s.opts.deadline
    requires OnePerSession(table) && Listed(sys, table) && Timely(sys, table, stamps)
    ensures MeetsParked(sys.(now := sys.now + sys.cfg.sessionTimeout), table, Everyone(1), 0, h)
  {
    hide Known, Timely, Listed, OnePerSession, Advance, Possible, Enabled, Step;
    var later := sys.now + sys.cfg.sessionTimeout;
    ListedFires(sys, table, stamps, 1, later, 0);
    StillKnown(sys, sys.cfg.sessionTimeout);
    ReplyParks(sys.(now := later), t, h);
  }

  /** For every configuration with a session timeout in which sessions park at
      all, such a run exists. */
  lemma TimeoutCanMeetParked(cfg: RunConfig, d: Draws)
      returns (start: real, ms: seq<Moment>, w: World, h: Handler)
    requires Sane(cfg) && Admits(cfg) && CanPark(cfg, d) && cfg.sessionTimeout > 0.0
    ensures LegalTogether(Initial(cfg, start), ms) && Punctual(Initial(cfg, start), ms)
    ensures var (sys, table) := AfterTogether(Initial(cfg, start), [], ms);
            MeetsParked(sys, table, w, 0, h)
  {
    hide Reachable, Inv, Known, Timely, Listed, Punctual, Advance, Possible, Item, Sane, CanPark, AboutToPark;
    hide LegalTogether, AfterTogether, MeetsParked, Pause, Initial, OnePerSession;
    var sys, t, before, stamps;
    sys, t, h := ReadingIsReachable(cfg, d);
    ReachableInv(cfg, sys);
    start, before, stamps := WithTable(cfg, sys, 1);
    var table := AfterTogether(Initial(cfg, start), [], before).1;
    ThenPause(Initial(cfg, start), [], before, cfg.sessionTimeout, 1);
    ms := before + [Pause(sys, cfg.sessionTimeout, 1)];
    w := Everyone(1);
    ItemDeadline(cfg, d);
    MeetsAfterPause(sys, table, stamps, t, h);
  }

  lemma StillKnown(sys: System, dt: real)
    requires Known(sys)
    ensures Known(sys.(now := sys.now + dt))
  {
  }

  lemma ItemDeadline(cfg: RunConfig, d: Draws)
    requires cfg.sessionTimeout > 0.0
    ensures Item(cfg, d).session.deadline
  {
  }

  lemma ReplyParks(sys: System, t: Track, h: Handler)
    requires Known(sys) && OnlySession(sys, t) && AboutToPark(t, h)
    ensures Enabled(sys, Callback(0, h))
    ensures var parked := Step(sys, Callback(0, h));
            && |parked.tracks| > 0 && parked.parking[0] > 0
            && !parked.tracks[0].s.completed && !parked.tracks[0].s.timedOut
  {
    hide Advance, Possible, PutBack, EngineStep;
  }
}