/** How a session goes on and how it ends: which operation follows which, when
    it is over, and what its report says. */
module SessionEnds {
  import opened Prelude
  import opened SessionSpec
  import opened SessionLedger

  /** An operation came back with an error, or the file does not hold the start offset. */
  predicate Failed(s: Session, h: Handler) {
    || (h.OpenReply? && !h.ok)
    || (h.StatReply? && (!h.ok || !Plannable(s.opts, h.size)))
    || (h.ReadReply? && !h.ok)
  }

  /** XrdCl refuses what the handler submits, if it submits anything. */
  predicate TurnedDown(h: Handler) {
    match h
    case OpenReply(_, accept) => !accept
    case StatReply(_, _, accept, _) => !accept
    case ReadReply(_, _, accept, _) => !accept
    case CloseReply(_) => false
    case WallTimeout(accept) => !accept
    case EngineIssue(_, accept, _) => !accept
    case EngineClose(accept) => !accept
  }

  /** The plan is as long as the file from the start offset on, or as the byte
      cap if there is one and it is shorter. */
  lemma PlanIsTheMost(o: Options, size: nat)
    ensures var plan := PlannedBytes(o, size);
            var rest := if o.randomOffset then size else if o.offset < size then size - o.offset else 0;
            && plan <= rest && (o.maxBytes > 0 ==> plan <= o.maxBytes)
            && (plan == rest || (o.maxBytes > 0 && plan == o.maxBytes))
  {
  }

  // ---------------------------------------------------------------- what a report says

  /** Only an answered Close of a session that had not timed out reports ok; a
      report names the timeout unless another operation failed first. */
  ghost predicate Truthful(s: Session, h: Handler, fx: Fx) {
    fx.done.Some? ==>
      && (fx.done.value.ok <==> h.CloseReply? && h.ok && !s.timedOut)
      && (fx.done.value.timedOut <==> (s.timedOut || h.WallTimeout?) && !Failed(s, h))
  }

  /** A session is over when its Close was answered or an operation failed;
      otherwise only a refused submission can end it. */
  ghost predicate Timed(s: Session, h: Handler, fx: Fx) {
    && (h.CloseReply? || Failed(s, h) ==> fx.done.Some?)
    && (fx.done.Some? ==> h.CloseReply? || Failed(s, h) || TurnedDown(h))
  }

  /** The operation that follows when XrdCl accepts it. */
  ghost predicate Follows(s: Session, h: Handler, s': Session, fx: Fx) {
    var close := if s.closeRequested then None else Some(CloseOp);
    && (h.OpenReply? && h.ok ==> fx.accepted == if s.timedOut then close else Some(StatOp))
    && (h.StatReply? && h.ok && Plannable(s.opts, h.size) ==>
          fx.accepted == if s.timedOut || PlannedBytes(s.opts, h.size) == 0 then close else Some(ReadOp))
    && (h.ReadReply? && h.ok ==>
          && (fx.parked <==> s'.remaining > 0)
          && fx.accepted == if fx.parked then None else close)
    && (h.EngineIssue? && s.remaining > 0 ==> fx.accepted == if s.timedOut then close else Some(ReadOp))
    && (h.WallTimeout? || h.EngineClose? ==> fx.accepted == close)
  }

  /** The handler submits an operation, whether or not XrdCl accepts it. */
  predicate Submits(s: Session, h: Handler) {
    match h
    case OpenReply(ok, _) => ok && !(s.timedOut && s.closeRequested)
    case StatReply(ok, size, _, _) =>
      ok && Plannable(s.opts, size) && !((s.timedOut || PlannedBytes(s.opts, size) == 0) && s.closeRequested)
    case ReadReply(ok, _, _, _) => ok && !s.closeRequested
    case CloseReply(_) => false
    case EngineIssue(_, _, _) => !((s.timedOut || s.remaining == 0) && s.closeRequested)
    case _ => !s.closeRequested
  }

  /** Every submission arms the deadline, a refused one included; parking disarms it. */
  ghost predicate Watches(s: Session, h: Handler, fx: Fx) {
    fx.table == if fx.parked then Disarm else if Submits(s, h) && s.opts.deadline then Arm else Keep
  }

  /** All four, for a session that is not over. */
  ghost predicate Proceeds(s: Session, h: Handler, out: (Session, Fx)) {
    && Truthful(s, h, out.1) && Timed(s, h, out.1) && Watches(s, h, out.1)
    && (!Failed(s, h) && !TurnedDown(h) && !h.CloseReply? ==> Follows(s, h, out.0, out.1))
    && (s.timedOut ==> out.0.timedOut && out.1.accepted != Some(StatOp) && out.1.accepted != Some(ReadOp))
    && (h.WallTimeout? && !s.closeRequested ==> out.0.timedOut)
    && (h.WallTimeout? && s.closeRequested ==> out == (s, QUIET))
    && (!h.WallTimeout? ==> out.0.timedOut == s.timedOut)
  }

  lemma CloseEnds(s: Session, accept: bool)
    requires !s.completed
    ensures var (s', fx) := SubmitClose(s, accept);
            && s'.timedOut == s.timedOut && fx.accepted == (if accept && !s.closeRequested then Some(CloseOp) else None)
            && (fx.done.Some? ==> !accept && fx.done.value.timedOut == s.timedOut && !fx.done.value.ok) && !fx.parked
            && s'.remaining == s.remaining && fx.table == (if s.closeRequested then Keep else ArmOf(s))
  {
  }

  lemma IssueEnds(s: Session, accept: bool, draws: seq<nat>)
    requires !s.completed
    ensures var (s', fx) := IssueNext(s, accept, draws);
            var close := if s.closeRequested then None else Some(CloseOp);
            && s'.timedOut == s.timedOut && !fx.parked
            && (accept ==> fx.done == None
                           && fx.accepted == if s.timedOut || s.remaining == 0 then close else Some(ReadOp))
            && (!accept ==> fx.accepted == None)
            && (fx.done.Some? ==> fx.done.value.timedOut == s.timedOut && !fx.done.value.ok)
            && fx.table == if (s.timedOut || s.remaining == 0) && s.closeRequested then Keep else ArmOf(s)
  {
    hide SubmitClose, ReadList, TotalLen;
    CloseEnds(DropPrepaid(if s.timedOut then s.(remaining := 0) else s), accept);
  }

  lemma OpenProceeds(s: Session, h: Handler)
    requires !s.completed && h.OpenReply?
    ensures Proceeds(s, h, OnOpen(s, h.ok, h.accept))
  {
    hide SubmitClose;
    CloseEnds(s.(pending := s.pending - 1), h.accept);
  }

  lemma StatProceeds(s: Session, h: Handler)
    requires !s.completed && h.StatReply?
    ensures Proceeds(s, h, OnStat(s, h.ok, h.size, h.accept, h.draws))
  {
    if !h.ok {
      hide IssueNext;
    } else if Plannable(s.opts, h.size) {
      StatGoesOn(s, h);
    } else {
      hide IssueNext;
    }
  }

  lemma StatGoesOn(s: Session, h: Handler)
    requires !s.completed && h.StatReply? && h.ok && Plannable(s.opts, h.size)
    ensures Proceeds(s, h, OnStat(s, h.ok, h.size, h.accept, h.draws))
  {
    hide OnStat, IssueNext, PlannedBytes;
    StatIssues(s, h.size, h.accept, h.draws);
    IssueEnds(Planned(s, h.size), h.accept, h.draws);
  }

  lemma AbsorbKeeps(s: Session, got: nat)
    ensures var read := Absorb(s, got);
            && read.completed == s.completed && read.timedOut == s.timedOut && read.closeRequested == s.closeRequested
            && read.paced == s.paced && read.opts == s.opts
  {
  }

  lemma ReadFailProceeds(s: Session, h: Handler)
    requires !s.completed && h.ReadReply? && !h.ok
    ensures Proceeds(s, h, OnRead(s, h.ok, h.got, h.accept, h.draws))
  {
    hide IssueNext, Absorb, Shortfall;
  }

  lemma ReadParkProceeds(s: Session, h: Handler)
    requires !s.completed && h.ReadReply? && s.paced && h.ok
    requires Absorb(s.(pending := s.pending - 1), h.got).remaining > 0
    ensures Proceeds(s, h, OnRead(s, h.ok, h.got, h.accept, h.draws))
  {
    hide IssueNext, Absorb, Shortfall;
    AbsorbKeeps(s.(pending := s.pending - 1), h.got);
  }

  lemma ReadEndProceeds(s: Session, h: Handler)
    requires !s.completed && h.ReadReply? && s.paced && h.ok
    requires Absorb(s.(pending := s.pending - 1), h.got).remaining == 0
    ensures Proceeds(s, h, OnRead(s, h.ok, h.got, h.accept, h.draws))
  {
    hide IssueNext, Absorb, Shortfall;
    var read := Absorb(s.(pending := s.pending - 1), h.got);
    AbsorbKeeps(s.(pending := s.pending - 1), h.got);
    IssueEnds(read, h.accept, h.draws);
    IssueLeaves(read, h.accept, h.draws);
  }

  lemma ReadProceeds(s: Session, h: Handler)
    requires !s.completed && h.ReadReply? && s.paced
    ensures Proceeds(s, h, OnRead(s, h.ok, h.got, h.accept, h.draws))
  {
    hide Proceeds, OnRead, Absorb;
    if !h.ok {
      ReadFailProceeds(s, h);
    } else if Absorb(s.(pending := s.pending - 1), h.got).remaining > 0 {
      ReadParkProceeds(s, h);
    } else {
      ReadEndProceeds(s, h);
    }
  }

  lemma IssueLeaves(s: Session, accept: bool, draws: seq<nat>)
    requires !s.completed && s.remaining == 0
    ensures IssueNext(s, accept, draws).0.remaining == 0
  {
    hide SubmitClose;
    CloseEnds(DropPrepaid(s), accept);
  }

  lemma CloseReplyProceeds(s: Session, h: Handler)
    requires !s.completed && h.CloseReply?
    ensures Proceeds(s, h, OnClose(s, h.ok))
  {
  }

  lemma AskProceeds(s: Session, h: Handler)
    requires !s.completed
    ensures h.WallTimeout? ==> Proceeds(s, h, RequestWallTimeout(s, h.accept))
    ensures h.EngineClose? ==> Proceeds(s, h, CloseNow(s, h.accept))
  {
    hide SubmitClose;
    if h.WallTimeout? {
      CloseEnds(s.(timedOut := true), h.accept);
    } else if h.EngineClose? {
      CloseEnds(s.(remaining := 0), h.accept);
    }
  }

  lemma EngineProceeds(s: Session, h: Handler)
    requires !s.completed && h.EngineIssue?
    ensures Proceeds(s, h, IssueNextFromEngine(s, h.accept, h.draws))
  {
    hide IssueNext;
    IssueEnds(s, h.accept, h.draws);
  }

  /** Whatever happens to a paced session that is not over goes on and ends so. */
  lemma HandlerProceeds(s: Session, h: Handler)
    requires !s.completed && s.paced
    ensures Proceeds(s, h, Handle(s, h))
  {
    hide Proceeds, OnOpen, OnStat, OnRead, OnClose, RequestWallTimeout, CloseNow, IssueNextFromEngine;
    match h {
      case OpenReply(_, _) => OpenProceeds(s, h);
      case StatReply(_, _, _, _) => StatProceeds(s, h);
      case ReadReply(_, _, _, _) => ReadProceeds(s, h);
      case CloseReply(_) => CloseReplyProceeds(s, h);
      case WallTimeout(_) => AskProceeds(s, h);
      case EngineIssue(_, _, _) => EngineProceeds(s, h);
      case EngineClose(_) => AskProceeds(s, h);
    }
  }
}
