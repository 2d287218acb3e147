/** Where tokens are lost: the bucket was charged, nothing is refunded, and no
    counted byte answers for it. Only sessions that timed out can lose tokens;
    these lemmas say exactly in which handler, and how much that adds up to. */
module SessionLosses {
  import opened SessionSpec
  import opened SessionLedger

  /** What the session can still give back. */
  function Refundable(t: Track): nat {
    if t.s.completed then 0 else t.s.prepaid
  }

  /** Tokens gone for good: paid, not refunded, matched neither by counted bytes
      nor by a read in flight, not held by the engine, and no longer refundable. */
  function Lost(t: Track, paid: nat): int {
    t.charged - t.refunded - t.s.bytesRead - InFlight(t) - paid - Refundable(t)
  }

  lemma LostIs(t: Track, paid: nat)
    requires Ledger(t, paid)
    ensures Lost(t, paid) == t.forfeited + if t.s.completed then t.s.prepaid else 0
  {
  }

  /** The guards of the branches that lose tokens: a continuation paid for a
      session that is over or timed out, a read reply that comes after the end,
      and the two ways a timed-out session ends without refunding its prepayment. */
  predicate LosesTokens(s: Session, h: Handler) {
    match h
    case EngineIssue(charge, _, _) => charge > 0 && (s.completed || s.timedOut)
    case ReadReply(_, _, _, _) => s.completed && s.requested > 0
    case CloseReply(_) => !s.completed && s.timedOut && s.prepaid > 0
    case OpenReply(ok, accept) =>
      !s.completed && ok && s.timedOut && s.prepaid > 0 && !s.closeRequested && !accept && s.pending == 1
    case _ => false
  }

  /** How much such a branch loses. */
  function AmountLost(s: Session, h: Handler): nat {
    if !LosesTokens(s, h) then 0
    else if h.EngineIssue? then h.charge
    else if h.ReadReply? then s.requested
    else s.prepaid
  }

  /** The prepayment left by a handler that ends the session. */
  ghost predicate PrepaidFate(s: Session, h: Handler, s': Session) {
    && (s.completed ==> s'.completed && s'.prepaid == s.prepaid)
    && (!s.completed && s'.completed ==>
          s'.prepaid == if (h.CloseReply? || h.OpenReply?) && LosesTokens(s, h) then s.prepaid else 0)
  }

  lemma IssuePrepaid(s: Session, accept: bool, draws: seq<nat>)
    requires !s.completed && (s.issuedRead ==> s.prepaid == 0)
    ensures IssueNext(s, accept, draws).0.prepaid == 0
  {
    hide ReadList, TotalLen;
    if s.timedOut || s.remaining == 0 {
      if s.closeRequested {
      } else if accept {
      } else if s.pending > 0 {
      }
    } else if accept {
    }
  }

  lemma StatFate(t: Track, h: Handler, places: nat, paid: nat)
    requires h.StatReply? && Shape(t, places, paid) && Possible(t, h)
    ensures PrepaidFate(t.s, h, Handle(t.s, h).0)
  {
    if !t.s.completed && h.ok && Plannable(t.s.opts, h.size) {
      StatIssues(t.s, h.size, h.accept, h.draws);
      IssuePrepaid(Planned(t.s, h.size), h.accept, h.draws);
      hide OnStat, IssueNext;
    }
    hide IssueNext;
  }

  lemma ReadFate(t: Track, h: Handler, places: nat, paid: nat)
    requires h.ReadReply? && Shape(t, places, paid) && Possible(t, h)
    ensures PrepaidFate(t.s, h, Handle(t.s, h).0)
  {
    hide OnOpen, OnStat, OnClose, RequestWallTimeout, IssueNextFromEngine, CloseNow;
    if !t.s.completed {
      ReadIdle(t, h, places, paid);
      IssuePrepaid(Counted(t, h.got), h.accept, h.draws);
    }
    hide IssueNext, Shape, Idle;
  }

  lemma OpenFate(t: Track, h: Handler, places: nat, paid: nat)
    requires h.OpenReply? && Shape(t, places, paid) && Possible(t, h)
    ensures PrepaidFate(t.s, h, Handle(t.s, h).0)
  {
    hide OnStat, OnRead, OnClose, RequestWallTimeout, IssueNextFromEngine, CloseNow, IssueNext;
  }

  lemma CloseFate(t: Track, h: Handler, places: nat, paid: nat)
    requires h.CloseReply? && Shape(t, places, paid) && Possible(t, h)
    ensures PrepaidFate(t.s, h, Handle(t.s, h).0)
  {
    hide OnOpen, OnStat, OnRead, RequestWallTimeout, IssueNextFromEngine, CloseNow, IssueNext;
  }

  lemma AskFate(t: Track, h: Handler, places: nat, paid: nat)
    requires (h.WallTimeout? || h.EngineClose?) && Shape(t, places, paid) && Lawful(h, places, paid)
    ensures PrepaidFate(t.s, h, Handle(t.s, h).0)
  {
    hide OnOpen, OnStat, OnRead, OnClose, IssueNextFromEngine, IssueNext;
  }

  lemma EngineFate(t: Track, h: Handler, places: nat, paid: nat)
    requires h.EngineIssue? && Shape(t, places, paid) && Lawful(h, places, paid)
    ensures PrepaidFate(t.s, h, Handle(t.s, h).0)
  {
    hide OnOpen, OnStat, OnRead, OnClose, RequestWallTimeout, CloseNow;
    if !t.s.completed {
      IssuePrepaid(t.s, h.accept, h.draws);
    }
    hide IssueNext, Shape;
  }

  lemma HandlerFate(t: Track, h: Handler, places: nat, paid: nat)
    requires Shape(t, places, paid) && Possible(t, h) && Lawful(h, places, paid)
    ensures PrepaidFate(t.s, h, Handle(t.s, h).0)
  {
    hide PrepaidFate, Shape, Handle, Possible, Lawful;
    match h
    case OpenReply(_, _) => OpenFate(t, h, places, paid);
    case StatReply(_, _, _, _) => StatFate(t, h, places, paid);
    case ReadReply(_, _, _, _) => ReadFate(t, h, places, paid);
    case CloseReply(_) => CloseFate(t, h, places, paid);
    case WallTimeout(_) => AskFate(t, h, places, paid);
    case EngineIssue(_, _, _) => EngineFate(t, h, places, paid);
    case EngineClose(_) => AskFate(t, h, places, paid);
  }

  /** A handler loses tokens if and only if it takes one of those branches, and
      then exactly so many. */
  lemma TokensLostIff(t: Track, h: Handler, places: nat, paid: nat)
    requires Shape(t, places, paid) && Ledger(t, paid) && Possible(t, h) && Lawful(h, places, paid)
    ensures Lost(Advance(t, h).0, PaidAfter(h, paid)) == Lost(t, paid) + AmountLost(t.s, h)
    ensures Lost(Advance(t, h).0, PaidAfter(h, paid)) > Lost(t, paid) <==> LosesTokens(t.s, h)
  {
    hide Shape, Ledger, Handle, Possible, Lawful, Lost;
    AdvanceLedger(t, h, places, paid);
    LostIs(t, paid);
    LostIs(Advance(t, h).0, PaidAfter(h, paid));
    LossIs(t, h, places, paid);
  }

  lemma LossIs(t: Track, h: Handler, places: nat, paid: nat)
    requires Shape(t, places, paid) && Possible(t, h) && Lawful(h, places, paid)
    ensures var t' := Advance(t, h).0;
            && t'.forfeited + (if t'.s.completed then t'.s.prepaid else 0)
               == t.forfeited + (if t.s.completed then t.s.prepaid else 0) + AmountLost(t.s, h)
            && (LosesTokens(t.s, h) <==> AmountLost(t.s, h) > 0)
  {
    HandlerFate(t, h, places, paid);
    AdvanceShape(t, h, places, paid);
    assert h.EngineIssue? ==> h.charge > 0;
    assert h.CloseReply? && !t.s.completed ==> Advance(t, h).0.s.completed;
    if LosesTokens(t.s, h) && h.OpenReply? {
      OpenEnds(t, h);
    }
    hide Shape, Handle, Possible, Lawful;
  }

  lemma OpenEnds(t: Track, h: Handler)
    requires h.OpenReply? && LosesTokens(t.s, h) && Possible(t, h)
    ensures Advance(t, h).0.s.completed
  {
  }

  /** Once a session is over and nothing is in flight for it, the net charge is
      the reported bytes plus what was lost. */
  lemma SettledAccount(t: Track, places: nat, paid: nat)
    requires Shape(t, places, paid) && Ledger(t, paid) && t.s.completed && InFlight(t) == 0 && paid == 0
    ensures 0 <= Lost(t, 0) == t.charged - t.refunded - t.s.result.bytesRead
    ensures Lost(t, 0) > 0 ==> t.s.timedOut
  {
  }

  /** Every session with a deadline can lose its whole prepayment: the deadline
      passes while Open is pending, XrdCl refuses Close because of that, the
      reply to Open arrives, Close is asked for again and answered. */
  lemma PrepaidCanBeLost(opts: Options, prepaid: nat)
    requires prepaid > 0 && opts.deadline
    ensures var t0 := Begin(opts, prepaid, true).0;
            && t0.entry && Possible(t0, WallTimeout(false))
            && var t1 := Advance(t0, WallTimeout(false)).0;
            && t1.owed == Owed(1, 0, 0, 0) && Possible(t1, OpenReply(true, true))
            && var t2 := Advance(t1, OpenReply(true, true)).0;
            && t2.owed == Owed(0, 0, 0, 1) && Possible(t2, CloseReply(true))
            && var t3 := Advance(t2, CloseReply(true)).0;
            && t3.s.completed && t3.s.result == Report(false, true, 0, 0) && !t3.s.held
            && t3.charged == prepaid && t3.refunded == 0 && Lost(t3, 0) == prepaid
  {
    hide OnStat, OnRead, CloseNow, IssueNextFromEngine, IssueNext;
    var t0 := Begin(opts, prepaid, true).0;
    assert t0.owed == Owed(1, 0, 0, 0) && t0.s.pending == 1 && t0.s.held && t0.s.prepaid == prepaid;
    var t1 := Advance(t0, WallTimeout(false)).0;
    assert t1.owed == Owed(1, 0, 0, 0) && t1.s == t0.s.(timedOut := true);
    var t2 := Advance(t1, OpenReply(true, true)).0;
    assert t2.owed == Owed(0, 0, 0, 1) && t2.s == t1.s.(closeRequested := true);
  }
}
