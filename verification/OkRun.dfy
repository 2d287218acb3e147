/** How the sessions of a run end, and a run in which one ends well. */
module OkRuns {
  import opened RunConfigs
  import opened Schedulers
  import opened SessionSpec
  import opened SessionLedger
  import opened SessionEnds
  import opened EngineSpec
  import opened EngineInvariants
  import opened EngineRuns
  import opened Effects
  import opened HungDrains
  import opened RunLosses

  /** In every reachable state: whatever happens next to a session that is not
      over, it goes on and ends as the sessions do, and the run counts its report. */
  lemma SessionsProceed(cfg: RunConfig, sys: System, id: nat, h: Handler)
    requires Sane(cfg) && Reachable(cfg, sys) && id < |sys.tracks| && !sys.tracks[id].s.completed
    requires !h.Custodial() && Possible(sys.tracks[id], h)
    ensures Proceeds(sys.tracks[id].s, h, Handle(sys.tracks[id].s, h))
    ensures Known(sys) && Enabled(sys, Callback(id, h))
    ensures var (t', fx) := Advance(sys.tracks[id], h);
            && (t'.s.completed <==> fx.done.Some?)
            && Reports(sys, Step(sys, Callback(id, h)), fx.done)
            && (fx.done.Some? ==> fx.done.value.bytesRead == t'.s.bytesRead && fx.done.value.ops == t'.s.ops)
  {
    hide Reachable, Ledger, Handle, Possible, Proceeds, Reports, Step, Phases, Callbacks;
    ReachableInv(cfg, sys);
    SessionShape(cfg, sys, id);
    AdvanceShape(sys.tracks[id], h, Places(sys, id), PaidTo(sys, id));
    PacedInARun(cfg, sys, id);
    HandlerProceeds(sys.tracks[id].s, h);
    StepDoes(sys, Callback(id, h));
  }

  lemma PacedInARun(cfg: RunConfig, sys: System, id: nat)
    requires Sane(cfg) && Reachable(cfg, sys) && id < |sys.tracks|
    ensures sys.tracks[id].s.paced
  {
    hide Reachable, Ledger, Callbacks, Endings;
    SessionShape(cfg, sys, id);
  }

  // ---------------------------------------------------------------- a run that ends well

  /** A session of options `o` that has met no timeout, short read or CloseNow. */
  ghost predicate Undisturbed(t: Track, o: Options) {
    t.s.opts == o && !t.s.completed && !t.s.timedOut && !t.short && !t.cut
  }

  ghost predicate Shaped(t: Track) {
    exists places: nat, paid: nat :: Shape(t, places, paid)
  }

  /** One reply that is neither an error nor followed by a refusal. */
  lemma Hears(cfg: RunConfig, sys: System, t: Track, h: Handler, o: Options) returns (next: System, u: Track)
    requires Sane(cfg) && Reachable(cfg, sys) && OnlySession(sys, t) && Undisturbed(t, o)
    requires h.Reply() && Possible(t, h) && !Failed(t.s, h) && !TurnedDown(h)
    requires h.ReadReply? ==> h.got == t.s.requested
    ensures Reachable(cfg, next) && OnlySession(next, u) && u == Advance(t, h).0
    ensures u.owed == Deliver(t.owed, h).Add(Handle(t.s, h).1.accepted) && Shaped(u)
    ensures u.s.opts == o
    ensures !h.CloseReply? ==> Undisturbed(u, o) && Follows(t.s, h, u.s, Handle(t.s, h).1)
    ensures h.CloseReply? ==> u.s.completed && (u.s.result.ok <==> h.ok) && !u.short && !u.cut
    ensures u.budget == if h.StatReply? then PlannedBytes(o, h.size) else t.budget
  {
    hide Reachable, Handle, Possible, Follows, Shape, Ledger, Places, PaidTo;
    SessionsProceed(cfg, sys, 0, h);
    next := Hear(cfg, sys, t, h);
    u := Advance(t, h).0;
    SessionShape(cfg, next, 0);
    SessionShape(cfg, sys, 0);
    AdvanceShape(t, h, Places(sys, 0), PaidTo(sys, 0));
  }

  /** After Stat the whole plan is left to read, and one operation asks for it. */
  lemma WholePlan(t: Track, h: Handler)
    requires h.StatReply? && h.ok && h.accept && !t.s.completed && !t.s.timedOut && Possible(t, h)
    requires Plannable(t.s.opts, h.size) && 0 < PlannedBytes(t.s.opts, h.size) <= OpBytes(t.s.opts)
    requires Shaped(Advance(t, h).0) && Advance(t, h).0.owed.read == 1
    ensures Advance(t, h).0.s.requested == Advance(t, h).0.s.remaining == PlannedBytes(t.s.opts, h.size)
  {
    hide OnStat, IssueNext, PlannedBytes, OpBytes, Callbacks, Endings;
    StatIssues(t.s, h.size, h.accept, h.draws);
    IssueChanges(Planned(t.s, h.size), h.accept, h.draws);
    var places: nat, paid: nat :| Shape(Advance(t, h).0, places, paid);
  }

  /** A reply with everything that was left ends the reading. */
  lemma NothingLeft(t: Track, h: Handler)
    requires h.ReadReply? && h.ok && !t.s.completed && Possible(t, h)
    requires h.got == t.s.requested == t.s.remaining
    ensures Advance(t, h).0.s.remaining == 0
  {
    hide IssueNext;
    IssueLeaves(Counted(t, h.got), h.accept, h.draws);
    ReadIssues(t, h);
  }

  lemma ReplyOwed(t: Track, h: Handler)
    requires h.Reply() && (h.OpenReply? ==> t.owed.open > 0) && (h.StatReply? ==> t.owed.stat > 0 && h.size < WORD64)
    requires (h.ReadReply? ==> t.owed.read > 0 && h.got <= t.s.requested) && (h.CloseReply? ==> t.owed.close > 0)
    ensures Possible(t, h)
  {
  }

  lemma StartsUndisturbed(o: Options, prepaid: nat)
    ensures var t := Begin(o, prepaid, true).0;
            Undisturbed(t, o) && t.owed == Owed(1, 0, 0, 0)
  {
  }

  /** A session with a Close outstanding, or none asked for. */
  lemma CloseIsOwed(t: Track)
    requires Shaped(t) && !t.s.completed && t.owed.close == 0
    ensures !t.s.closeRequested
  {
    hide Phases, Endings;
    var places: nat, paid: nat :| Shape(t, places, paid);
  }

  lemma RunShapes(cfg: RunConfig, sys: System, t: Track)
    requires Sane(cfg) && Reachable(cfg, sys) && OnlySession(sys, t)
    ensures Shaped(t)
  {
    hide Reachable, Shape, Ledger;
    SessionShape(cfg, sys, 0);
  }

  lemma PlanNeedsOffset(o: Options, size: nat)
    requires PlannedBytes(o, size) > 0
    ensures Plannable(o, size)
  {
  }

  lemma SumOfOne(ts: seq<Track>, f: Track -> nat)
    requires |ts| == 1
    ensures SumOf(ts, f) == f(ts[0])
  {
    assert ts[1..] == [];
  }

  lemma OnlyPlan(sys: System, t: Track)
    requires TracksOk(sys) && OnlySession(sys, t) && t.s.result.ok
    ensures t.s.completed && t.s.budgetSet && !t.s.result.timedOut && t.budget == PlannedBytes(t.s.opts, t.s.fileSize)
  {
    hide OpBytes, PlannedBytes, Times, Layout, Ledger, Callbacks, Phases, Places, PaidTo;
    assert TrackOk(sys, 0);
  }

  lemma OnlyParts(sys: System)
    requires Inv(sys)
    ensures TracksOk(sys) && SlotsOk(sys)
  {
    hide TracksOk, SlotsOk, BucketOk, PriceOk, OrderOk, TokensOk;
  }

  lemma OnlyCounts(sys: System, t: Track)
    requires SlotsOk(sys) && OnlySession(sys, t) && t.s.completed && t.s.result.ok
    ensures sys.okCount == 1 && sys.failCount == 0 && sys.bytesTotal == t.s.result.bytesRead
  {
    hide SumOf;
    SumOfOne(sys.tracks, OpenOne);
    SumOfOne(sys.tracks, OkOne);
    SumOfOne(sys.tracks, OkBytes);
  }

  /** The account of the only session, once it is reported ok. */
  lemma OkAccount(cfg: RunConfig, sys: System, t: Track, plan: nat)
    requires Sane(cfg) && Reachable(cfg, sys) && OnlySession(sys, t)
    requires t.s.completed && t.s.result.ok && !t.short && !t.cut && t.budget == plan && 0 < plan <= OpBytes(t.s.opts)
    ensures t.s.result == Report(true, false, plan, 1) && TotalLen(t.issued) == plan
    ensures sys.okCount == 1 && sys.failCount == 0 && sys.bytesTotal == plan
  {
    hide Reachable, Inv, TracksOk, SlotsOk, OpBytes, PlannedBytes, TotalLen, CeilDiv;
    hide ReadLists.InFile, ReadLists.Sized, ReadLists.Abut;
    ReachableInv(cfg, sys);
    OnlyParts(sys);
    OnlyPlan(sys, t);
    OnlyCounts(sys, t);
    SessionReads(cfg, sys, 0);
    OneOperation(plan, OpBytes(t.s.opts));
  }

  lemma OneOperation(plan: nat, op: nat)
    requires 0 < plan <= op
    ensures CeilDiv(plan, op) == 1
  {
    CeilDivIs(plan, op, 1);
  }

  /** For every configuration that admits sessions, every draw, and every file
      whose plan one operation can read: some run ends with that session
      reported ok, with exactly its plan in one read, and counted so. */
  lemma SomeSessionEndsOk(cfg: RunConfig, d: Draws, size: nat) returns (sys: System)
    requires Sane(cfg) && Admits(cfg) && size < WORD64
    requires 0 < PlannedBytes(Item(cfg, d).session, size) <= OpBytes(Item(cfg, d).session)
    ensures Reachable(cfg, sys) && |sys.tracks| == 1
    ensures var plan := PlannedBytes(Item(cfg, d).session, size);
            && sys.tracks[0].s.completed && sys.tracks[0].s.result == Report(true, false, plan, 1)
            && TotalLen(sys.tracks[0].issued) == plan
            && sys.okCount == 1 && sys.failCount == 0 && sys.bytesTotal == plan
  {
    hide Reachable, Advance, Begin, Possible, Handle, Item, Sane, OpBytes, PlannedBytes, Shaped, Plannable;
    var o, prepaid := Item(cfg, d).session, Item(cfg, d).opBytes;
    var plan := PlannedBytes(o, size);
    PlanNeedsOffset(o, size);
    sys := OneStarted(cfg, d);
    var t := Begin(o, prepaid, true).0;
    StartsUndisturbed(o, prepaid);
    RunShapes(cfg, sys, t);
    CloseIsOwed(t);
    ReplyOwed(t, OpenReply(true, true));
    sys, t := Hears(cfg, sys, t, OpenReply(true, true), o);
    CloseIsOwed(t);
    var h := StatReply(true, size, true, []);
    ReplyOwed(t, h);
    WholePlan(t, h) by {
      var next, u := Hears(cfg, sys, t, h, o);
    }
    sys, t := Hears(cfg, sys, t, h, o);
    CloseIsOwed(t);
    h := ReadReply(true, plan, true, []);
    ReplyOwed(t, h);
    NothingLeft(t, h);
    sys, t := Hears(cfg, sys, t, h, o);
    ReplyOwed(t, CloseReply(true));
    sys, t := Hears(cfg, sys, t, CloseReply(true), o);
    OkAccount(cfg, sys, t, plan);
  }
}
