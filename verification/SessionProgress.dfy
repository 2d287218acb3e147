/** How far a session is from its end: every delivered callback brings it
    closer, and nothing but the engine's next read takes it back. */
module SessionProgress {
  import opened Prelude
  import opened SessionSpec
  import opened SessionLedger

  /** Which operation a handler may submit, and when it parks or ends the session. */
  ghost predicate Kinds(h: Handler, s': Session, fx: Fx) {
    && fx.accepted != Some(OpenOp)
    && (fx.accepted == Some(StatOp) ==> h.OpenReply?)
    && (fx.accepted == Some(ReadOp) ==> h.StatReply? || h.EngineIssue?)
    && (fx.parked ==> h.ReadReply? && !s'.completed && fx.accepted == None)
    && (h.CloseReply? ==> s'.completed && fx.accepted == None)
  }

  lemma OpenKinds(s: Session, h: Handler)
    requires h.OpenReply?
    ensures var (s', fx) := OnOpen(s, h.ok, h.accept); Kinds(h, s', fx)
  {
  }

  lemma IssueKinds(s: Session, accept: bool, draws: seq<nat>)
    ensures var fx := IssueNext(s, accept, draws).1;
            && !fx.parked && fx.accepted != Some(OpenOp) && fx.accepted != Some(StatOp)
            && (s.remaining == 0 ==> fx.accepted != Some(ReadOp))
  {
    hide ReadList, TotalLen;
  }

  lemma StatQuits(s: Session, h: Handler)
    requires h.StatReply? && (s.completed || !h.ok || !Plannable(s.opts, h.size))
    ensures var (s', fx) := OnStat(s, h.ok, h.size, h.accept, h.draws); Kinds(h, s', fx)
  {
    hide IssueNext;
    if s.completed {
    } else if !h.ok {
    }
  }

  lemma StatKinds(s: Session, h: Handler)
    requires h.StatReply?
    ensures var (s', fx) := OnStat(s, h.ok, h.size, h.accept, h.draws); Kinds(h, s', fx)
  {
    hide OnStat, IssueNext, Planned, Plannable;
    if s.completed || !h.ok || !Plannable(s.opts, h.size) {
      StatQuits(s, h);
    } else {
      StatIssues(s, h.size, h.accept, h.draws);
      IssueKinds(Planned(s, h.size), h.accept, h.draws);
    }
  }

  lemma ReadKinds(s: Session, h: Handler)
    requires h.ReadReply? && s.paced
    ensures var (s', fx) := OnRead(s, h.ok, h.got, h.accept, h.draws); Kinds(h, s', fx)
  {
    hide IssueNext;
    var read := Absorb(s.(pending := s.pending - 1), h.got);
    IssueKinds(read, h.accept, h.draws);
    if s.completed {
    } else if !h.ok {
    } else if read.remaining > 0 {
    }
  }

  lemma CloseKinds(s: Session, h: Handler)
    requires h.CloseReply?
    ensures var (s', fx) := OnClose(s, h.ok); Kinds(h, s', fx)
  {
  }

  lemma TimeoutKinds(s: Session, h: Handler)
    requires h.WallTimeout?
    ensures var (s', fx) := RequestWallTimeout(s, h.accept); Kinds(h, s', fx)
  {
  }

  lemma CloseNowKinds(s: Session, h: Handler)
    requires h.EngineClose?
    ensures var (s', fx) := CloseNow(s, h.accept); Kinds(h, s', fx)
  {
  }

  lemma EngineIssueKinds(s: Session, h: Handler)
    requires h.EngineIssue?
    ensures var (s', fx) := IssueNextFromEngine(s, h.accept, h.draws); Kinds(h, s', fx)
  {
    hide IssueNext;
    IssueKinds(s, h.accept, h.draws);
  }

  lemma HandlerKinds(s: Session, h: Handler)
    requires s.paced
    ensures Kinds(h, Handle(s, h).0, Handle(s, h).1)
  {
    hide Kinds, OnOpen, OnStat, OnRead, OnClose, RequestWallTimeout, IssueNextFromEngine, CloseNow;
    match h
    case OpenReply(_, _) => OpenKinds(s, h);
    case StatReply(_, _, _, _) => StatKinds(s, h);
    case ReadReply(_, _, _, _) => ReadKinds(s, h);
    case CloseReply(_) => CloseKinds(s, h);
    case WallTimeout(_) => TimeoutKinds(s, h);
    case EngineIssue(_, _, _) => EngineIssueKinds(s, h);
    case EngineClose(_) => CloseNowKinds(s, h);
  }

  // ---------------------------------------------------------------- measures

  function PhaseOf(completed: bool, o: Owed): nat {
    if completed then 0
    else if o.open > 0 then 4
    else if o.stat > 0 then 3
    else if o.read > 0 then 2
    else 1
  }

  /** Callback deliveries a session needs before it completes, once no further
      read is issued for it. */
  function Phase(t: Track): nat {
    PhaseOf(t.s.completed, t.owed)
  }

  function WeightOf(completed: bool, o: Owed): nat {
    if completed then o.Total()
    else 2 + (if o.open > 0 then 5 else if o.stat > 0 then 4 else if o.read > 0 then 3 else 1)
  }

  /** All the steps a session can still cause: its own deliveries, its way
      through on_ready, and the two steps that follow its end. */
  function Weight(t: Track): nat {
    WeightOf(t.s.completed, t.owed)
  }

  function One(b: bool): nat {
    if b then 1 else 0
  }

  /** What the callback counters say after any handler but a new read. */
  lemma OwedAfter(t: Track, h: Handler, places: nat, paid: nat)
    requires Shape(t, places, paid) && Possible(t, h) && Lawful(h, places, paid) && !h.EngineIssue?
    ensures var (t', fx) := Advance(t, h);
            && Kinds(h, t'.s, fx) && Coherent(t.s, t'.s, t'.owed, fx)
            && t'.owed == Deliver(t.owed, h).Add(fx.accepted)
            && t.owed.Work() <= 1 && t.owed.close <= 1 && t'.owed.close <= 1
            && t'.s.pending == t'.owed.Total()
  {
    AdvanceShape(t, h, places, paid);
    assert t.s.paced;
    HandlerKinds(t.s, h);
    hide Kinds, Coherent, Handle, Phases, Endings;
  }

  /** The counters alone show the progress of a delivery. */
  lemma OwedProgress(o: Owed, h: Handler, accepted: Option<Op>, was: bool, done: bool, parked: bool)
    requires h.Reply() && o.Work() <= 1 && o.close <= 1
    requires (h.OpenReply? ==> o.open > 0) && (h.StatReply? ==> o.stat > 0)
    requires (h.ReadReply? ==> o.read > 0) && (h.CloseReply? ==> o.close > 0)
    requires Deliver(o, h).Add(accepted).close <= 1
    requires accepted != Some(OpenOp)
    requires (accepted == Some(StatOp) ==> h.OpenReply?) && (accepted == Some(ReadOp) ==> h.StatReply?)
    requires parked ==> h.ReadReply? && !was && !done
    requires (was ==> accepted == None && !done) && (h.CloseReply? ==> (was || done) && accepted == None)
    ensures WeightOf(was || done, Deliver(o, h).Add(accepted)) + 2 * One(done) + One(parked) < WeightOf(was, o)
    ensures PhaseOf(was || done, Deliver(o, h).Add(accepted)) <= PhaseOf(was, o)
    ensures !was ==> PhaseOf(was || done, Deliver(o, h).Add(accepted)) < PhaseOf(was, o)
  {
  }

  /** A delivered callback uses up weight, also counting what it sets off. */
  lemma ReplyProgress(t: Track, h: Handler, places: nat, paid: nat)
    requires Shape(t, places, paid) && Possible(t, h) && h.Reply()
    ensures var (t', fx) := Advance(t, h);
            && Weight(t') + 2 * One(fx.done.Some?) + One(fx.parked) < Weight(t)
            && Phase(t') <= Phase(t) && (!t.s.completed ==> Phase(t') < Phase(t))
  {
    var (t', fx) := Advance(t, h);
    OwedAfter(t, h, places, paid);
    assert t.s.completed ==> fx.accepted == None && t'.s.completed && fx.done.None? && !fx.parked;
    assert t'.s.completed == (t.s.completed || fx.done.Some?);
    hide Shape, Advance, Coherent, WeightOf, PhaseOf, Deliver;
    OwedProgress(t.owed, h, fx.accepted, t.s.completed, fx.done.Some?, fx.parked);
  }

  /** The watchdog and CloseNow set nothing off that was not counted. */
  lemma AskProgress(t: Track, h: Handler, places: nat, paid: nat)
    requires Shape(t, places, paid) && Lawful(h, places, paid) && (h.WallTimeout? || h.EngineClose?)
    ensures var (t', fx) := Advance(t, h);
            && Weight(t') + 2 * One(fx.done.Some?) <= Weight(t) && !fx.parked && Phase(t') <= Phase(t)
  {
    OwedAfter(t, h, places, paid);
    AskEnds(t, h, places, paid);
    hide Shape, Advance, Possible;
  }

  /** A Close that ends the session at once leaves nothing owed. */
  lemma AskEnds(t: Track, h: Handler, places: nat, paid: nat)
    requires Shape(t, places, paid) && Lawful(h, places, paid) && (h.WallTimeout? || h.EngineClose?)
    ensures var (t', fx) := Advance(t, h);
            fx.done.Some? ==> t'.owed.Total() == 0
  {
    hide OnOpen, OnStat, OnRead, OnClose, IssueNextFromEngine, IssueNext, Phases, Endings;
  }
}
