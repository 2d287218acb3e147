/** One session together with everything around it that the code never writes
    down in one place: the callbacks XrdCl still owes, the tokens paid for it
    and given back, and the reads it issued. The three invariants here hold
    after every handler, whatever XrdCl, the watchdog and the engine do. */
module SessionLedger {
  import opened Prelude
  import opened SessionSpec
  import opened ReadLists

  /** Accepted submissions whose callback has not been delivered yet. */
  datatype Owed = Owed(open: nat, stat: nat, read: nat, close: nat) {
    function Total(): nat {
      open + stat + read + close
    }

    /** Callbacks other than Close. */
    function Work(): nat {
      open + stat + read
    }

    function Add(op: Option<Op>): Owed {
      match op
      case None => this
      case Some(OpenOp) => this.(open := open + 1)
      case Some(StatOp) => this.(stat := stat + 1)
      case Some(ReadOp) => this.(read := read + 1)
      case Some(CloseOp) => this.(close := close + 1)
    }
  }

  /** What can happen to a started session. */
  datatype Handler =
    | OpenReply(ok: bool, accept: bool)
    | StatReply(ok: bool, size: nat, accept: bool, draws: seq<nat>)
    | ReadReply(ok: bool, got: nat, accept: bool, draws: seq<nat>)
    | CloseReply(ok: bool)
    | WallTimeout(accept: bool)
    | EngineIssue(charge: nat, accept: bool, draws: seq<nat>)
    | EngineClose(accept: bool)
  {
    predicate Reply() {
      OpenReply? || StatReply? || ReadReply? || CloseReply?
    }

    /** The engine, or a callback thread in its place, acts on a parked session. */
    predicate Custodial() {
      EngineIssue? || EngineClose?
    }
  }

  /** `delivered` counts every byte of every successful read reply, also of
      replies that arrive after the session completed. `forfeited` counts
      tokens that were paid, not refunded, and not matched by counted bytes.
      `dones` counts the firings of on_done; `entry` says whether the deadline
      table holds an entry; `short` and `cut` record a short read and a
      CloseNow; `budget` is the number of bytes planned after Stat. */
  datatype Track = Track(s: Session, owed: Owed, charged: nat, refunded: nat, delivered: nat,
                         forfeited: nat, dones: nat, issued: seq<Chunk>, budget: nat,
                         short: bool, cut: bool, entry: bool)

  function Handle(s: Session, h: Handler): (Session, Fx) {
    match h
    case OpenReply(ok, accept) => OnOpen(s, ok, accept)
    case StatReply(ok, size, accept, draws) => OnStat(s, ok, size, accept, draws)
    case ReadReply(ok, got, accept, draws) => OnRead(s, ok, got, accept, draws)
    case CloseReply(ok) => OnClose(s, ok)
    case WallTimeout(accept) => RequestWallTimeout(s, accept)
    case EngineIssue(_, accept, draws) => IssueNextFromEngine(s, accept, draws)
    case EngineClose(accept) => CloseNow(s, accept)
  }

  function Deliver(o: Owed, h: Handler): Owed
    requires h.OpenReply? ==> o.open > 0
    requires h.StatReply? ==> o.stat > 0
    requires h.ReadReply? ==> o.read > 0
    requires h.CloseReply? ==> o.close > 0
  {
    match h
    case OpenReply(_, _) => o.(open := o.open - 1)
    case StatReply(_, _, _, _) => o.(stat := o.stat - 1)
    case ReadReply(_, _, _, _) => o.(read := o.read - 1)
    case CloseReply(_) => o.(close := o.close - 1)
    case _ => o
  }

  function EntryAfter(entry: bool, table: Table): bool {
    match table
    case Keep => entry
    case Arm => true
    case Disarm => false
  }

  /** Tokens the handler swallows: a continuation paid for a session that is
      over or timed out, or a read whose reply comes too late to be counted. */
  function Swallowed(s: Session, h: Handler): nat {
    match h
    case EngineIssue(charge, _, _) => if s.completed || s.timedOut then charge else 0
    case ReadReply(_, _, _, _) => if s.completed then s.requested else 0
    case _ => 0
  }

  function PlannedBytes(o: Options, size: nat): nat {
    if o.randomOffset then Budget(o, size)
    else if o.offset >= size then 0
    else Min(size - o.offset, Budget(o, size))
  }

  function Advance(t: Track, h: Handler): (Track, Fx)
    requires Possible(t, h)
  {
    var (s', fx) := Handle(t.s, h);
    var t' := Track(
      s', Deliver(t.owed, h).Add(fx.accepted),
      t.charged, t.refunded + fx.refunded,
      t.delivered + (if h.ReadReply? && h.ok then h.got else 0),
      t.forfeited + Swallowed(t.s, h),
      t.dones + (if fx.done.Some? then 1 else 0),
      t.issued + fx.chunks,
      if h.StatReply? && !t.s.completed && h.ok then PlannedBytes(t.s.opts, h.size) else t.budget,
      t.short || (h.ReadReply? && !t.s.completed && h.ok && h.got < t.s.requested),
      t.cut || h.EngineClose?,
      EntryAfter(t.entry, fx.table));
    (t', fx)
  }

  /** XrdCl delivers only callbacks it owes, and no read returns more than was asked. */
  ghost predicate Possible(t: Track, h: Handler) {
    && (h.OpenReply? ==> t.owed.open > 0)
    && (h.StatReply? ==> t.owed.stat > 0 && h.size < WORD64)
    && (h.ReadReply? ==> t.owed.read > 0 && h.got <= t.s.requested)
    && (h.CloseReply? ==> t.owed.close > 0)
  }

  /** A session started with `prepaid` tokens already taken from the bucket. */
  function Begin(opts: Options, prepaid: nat, accept: bool): (Track, Fx) {
    var (s, fx) := Start(Fresh(opts, true, prepaid), accept);
    (Track(s, Owed(0, 0, 0, 0).Add(fx.accepted), prepaid, fx.refunded, 0, 0,
           if fx.done.Some? then 1 else 0, [], 0, false, false, EntryAfter(false, fx.table)), fx)
  }

  // ---------------------------------------------------------------- the invariants

  /** Callback bookkeeping. `places` is the number of custodians holding the session. */
  ghost predicate Callbacks(s: Session, o: Owed, places: nat) {
    && s.pending == o.Total()
    && o.Work() <= 1 && o.close <= 1 && places <= 1
    && (o.close == 1 ==> s.closeRequested)
    && (s.closeRequested && !s.completed ==> o.close == 1)
    && (s.held <==> !(s.completed && s.pending == 0))
    && (!s.completed ==> o.Total() + places >= 1)
  }

  /** What each phase of a session guarantees. `paid` is the number of tokens a
      custodian has taken from the bucket for the next read. */
  ghost predicate Phases(s: Session, o: Owed, places: nat, paid: nat) {
    && Fits(s.opts) && s.paced
    && (places == 1 ==> o.Work() == 0 && s.issuedRead && s.budgetSet && s.remaining > 0 && s.requested == 0)
    && (paid > 0 ==> places == 1 && paid == NextOpBytes(s))
    && (o.open + o.stat > 0 ==> !s.issuedRead && !s.budgetSet && s.ops == 0 && s.bytesRead == 0 && s.requested == 0)
    && (o.read == 1 ==> s.issuedRead && s.remaining > 0 && s.requested == Min(OpBytes(s.opts), s.remaining))
    && (o.read == 0 && !s.completed ==> s.requested == 0)
    && (s.issuedRead ==> s.prepaid == 0)
    && (s.remaining > 0 ==> s.budgetSet)
    && s.remaining < WORD64
  }

  /** How a session may end. */
  ghost predicate Endings(s: Session, o: Owed, places: nat) {
    && (s.closeRequested && !s.timedOut ==>
          o.Work() == 0 && places == 0 && s.remaining == 0 && s.prepaid == 0 && s.budgetSet)
    && (s.completed && !s.timedOut ==> o.Total() == 0 && places == 0 && s.prepaid == 0)
    && (s.completed ==> s.result.bytesRead == s.bytesRead && s.result.ops == s.ops)
    && (s.result.timedOut ==> s.completed && s.timedOut)
    && (s.result.ok ==> s.completed && !s.timedOut && s.budgetSet && s.remaining == 0)
    && (!s.completed ==> s.result == NO_REPORT)
  }

  ghost predicate Core(s: Session, o: Owed, places: nat, paid: nat) {
    Callbacks(s, o, places) && Phases(s, o, places, paid) && Endings(s, o, places)
  }

  ghost predicate Shape(t: Track, places: nat, paid: nat) {
    && Core(t.s, t.owed, places, paid)
    && t.dones == (if t.s.completed then 1 else 0)
    && (t.entry ==> t.s.completed || t.owed.Total() > 0)
  }

  /** Tokens asked for by a read whose reply is still owed. */
  function InFlight(t: Track): nat {
    if t.owed.read > 0 then t.s.requested else 0
  }

  /** Every token is accounted for: counted bytes, unspent prepaid tokens, the
      read in flight, what a custodian holds, and what was forfeited. */
  ghost predicate Ledger(t: Track, paid: nat) {
    && t.charged == t.refunded + t.s.bytesRead + t.s.prepaid + InFlight(t) + paid + t.forfeited
    && t.s.bytesRead <= t.delivered <= t.s.bytesRead + t.forfeited
    && (t.forfeited > 0 ==> t.s.timedOut)
    && (t.owed.open + t.owed.stat > 0 && !t.s.completed ==> t.s.prepaid >= OpBytes(t.s.opts))
  }

  /** The custodian acts only on a session it holds, with what it paid for it. */
  ghost predicate Lawful(h: Handler, places: nat, paid: nat) {
    && (h.Custodial() ==> places == 1)
    && (h.EngineIssue? ==> h.charge == paid > 0)
    && (h.EngineClose? ==> paid == 0)
  }

  function PlacesAfter(h: Handler, places: nat, fx: Fx): nat {
    (if h.Custodial() then 0 else places) + (if fx.parked then 1 else 0)
  }

  function PaidAfter(h: Handler, paid: nat): nat {
    if h.Custodial() then 0 else paid
  }

  // ---------------------------------------------------------------- shape is kept

  /** What a handler's effects must say about the session it leaves. */
  ghost predicate Coherent(before: Session, s: Session, o: Owed, fx: Fx) {
    && (fx.done.Some? <==> s.completed && !before.completed)
    && (fx.done.Some? ==> fx.done.value == s.result)
    && (before.completed ==> s.completed && s.result == before.result
                             && fx.accepted == None && fx.refunded == 0 && fx.chunks == [])
    && s.opts == before.opts
    && (fx.table == Arm ==> s.completed || o.Total() > 0)
  }

  /** The session between two operations: nothing is owed but perhaps a Close. */
  ghost predicate Idle(s: Session, o: Owed) {
    && !s.completed && s.held
    && s.pending == o.Total() && o.Work() == 0 && o.close <= 1
    && (s.closeRequested <==> o.close == 1)
    && (s.closeRequested ==> s.timedOut)
    && Fits(s.opts) && s.paced && s.requested == 0 && s.remaining < WORD64
    && s.result == NO_REPORT
  }

  lemma SubmitCloseShape(s: Session, o: Owed, accept: bool)
    requires Idle(s, o) && s.remaining == 0
    requires s.issuedRead ==> s.prepaid == 0
    requires s.timedOut || (s.budgetSet && s.prepaid == 0)
    ensures var (s', fx) := Released(SubmitClose(s, accept));
            Core(s', o.Add(fx.accepted), 0, 0) && Coherent(s, s', o.Add(fx.accepted), fx)
            && !fx.parked && fx.table != Disarm && fx.refunded == 0
  {
  }

  lemma IssueNextShape(s: Session, o: Owed, accept: bool, draws: seq<nat>)
    requires Idle(s, o) && s.budgetSet
    requires s.issuedRead ==> s.prepaid == 0
    ensures var (s', fx) := Released(IssueNext(s, accept, draws));
            Core(s', o.Add(fx.accepted), 0, 0) && Coherent(s, s', o.Add(fx.accepted), fx)
            && !fx.parked && fx.table != Disarm
  {
    var s1 := if s.timedOut then s.(remaining := 0) else s;
    if s1.remaining == 0 {
      SubmitCloseShape(DropPrepaid(s1), o, accept);
    } else {
      FitsOpBytes(s.opts);
      ReadTotal(s1, draws);
    }
  }

  lemma OpenShape(t: Track, h: Handler, places: nat, paid: nat)
    requires h.OpenReply? && Shape(t, places, paid) && Possible(t, h)
    ensures Kept(t, h, places, paid)
  {
    hide OpBytes, FullOpBytes, Fits, ReadList, TotalLen;
    hide OnStat, OnRead, OnClose, RequestWallTimeout, IssueNextFromEngine, CloseNow, IssueNext;
    var s := t.s.(pending := t.s.pending - 1);
    if !s.completed && h.ok && s.timedOut {
      SubmitCloseShape(s, Deliver(t.owed, h), h.accept);
    }
  }

  /** The session once Stat has told the size of a file that holds the offset. */
  function Plan(s: Session, size: nat): Session {
    s.(fileSize := size, budgetSet := true, remaining := PlannedBytes(s.opts, size),
       nextOffset := if s.opts.randomOffset then 0 else s.opts.offset)
  }

  function Planned(s: Session, size: nat): Session {
    Plan(s.(pending := s.pending - 1), size)
  }

  predicate Plannable(o: Options, size: nat) {
    o.randomOffset || o.offset < size
  }

  lemma StatIssues(s: Session, size: nat, accept: bool, draws: seq<nat>)
    requires !s.completed && Plannable(s.opts, size)
    ensures OnStat(s, true, size, accept, draws) == Released(IssueNext(Planned(s, size), accept, draws))
  {
  }

  lemma StatIdle(t: Track, h: Handler, places: nat, paid: nat)
    requires h.StatReply? && Shape(t, places, paid) && Possible(t, h) && !t.s.completed
    ensures var s := Planned(t.s, h.size);
            Idle(s, Deliver(t.owed, h)) && !s.issuedRead && places == 0 && paid == 0 && t.owed.read == 0
  {
  }

  lemma StatShape(t: Track, h: Handler, places: nat, paid: nat)
    requires h.StatReply? && Shape(t, places, paid) && Possible(t, h)
    ensures Kept(t, h, places, paid)
  {
    hide OnOpen, OnRead, OnClose, RequestWallTimeout, IssueNextFromEngine, CloseNow, IssueNext;
    hide PlannedBytes, OpBytes, FullOpBytes, Fits, ReadList, TotalLen;
    if !t.s.completed && h.ok && Plannable(t.s.opts, h.size) {
      var s, o := Planned(t.s, h.size), Deliver(t.owed, h);
      StatIdle(t, h, places, paid);
      IssueNextShape(s, o, h.accept, h.draws);
      StatIssues(t.s, h.size, h.accept, h.draws);
    }
  }

  /** The session right after a successful read reply was counted. */
  function Counted(t: Track, got: nat): Session {
    Absorb(t.s.(pending := t.s.pending - 1), got)
  }

  lemma ReadIdle(t: Track, h: Handler, places: nat, paid: nat)
    requires h.ReadReply? && Shape(t, places, paid) && Possible(t, h) && !t.s.completed
    ensures Idle(Counted(t, h.got), Deliver(t.owed, h))
    ensures t.s.issuedRead && t.s.budgetSet && t.s.prepaid == 0 && places == 0 && paid == 0 && t.owed.read == 1
    ensures t.s.requested == Min(OpBytes(t.s.opts), t.s.remaining) > 0
    ensures Counted(t, h.got).remaining == if h.got < t.s.requested then 0 else t.s.remaining - h.got
  {
    FitsOpBytes(t.s.opts);
  }

  lemma ReadParkShape(t: Track, h: Handler, places: nat, paid: nat)
    requires h.ReadReply? && Shape(t, places, paid) && Possible(t, h) && !t.s.completed && h.ok
    requires Counted(t, h.got).remaining > 0
    ensures Kept(t, h, places, paid)
  {
    hide OnOpen, OnStat, OnClose, RequestWallTimeout, IssueNextFromEngine, CloseNow, IssueNext, Released, Swallowed;
    hide OpBytes, FullOpBytes, Fits;
    ReadIdle(t, h, places, paid);
    assert Counted(t, h.got).paced;
  }

  lemma ReadIssues(t: Track, h: Handler)
    requires h.ReadReply? && !t.s.completed && h.ok && Counted(t, h.got).remaining == 0
    ensures var (n, g) := Released(IssueNext(Counted(t, h.got), h.accept, h.draws));
            var (s', fx) := OnRead(t.s, h.ok, h.got, h.accept, h.draws);
            s' == n && fx == g.(refunded := Shortfall(t.s, h.got) + g.refunded)
  {
    hide IssueNext;
  }

  lemma ReadParks(t: Track, h: Handler)
    requires h.ReadReply? && !t.s.completed && t.s.paced && h.ok && Counted(t, h.got).remaining > 0
    ensures OnRead(t.s, h.ok, h.got, h.accept, h.draws)
         == (Counted(t, h.got), QUIET.(refunded := Shortfall(t.s, h.got), parked := true, table := Disarm))
  {
    hide IssueNext;
  }

  lemma ReadIssueShape(t: Track, h: Handler, places: nat, paid: nat)
    requires h.ReadReply? && Shape(t, places, paid) && Possible(t, h) && !t.s.completed && h.ok
    requires Counted(t, h.got).remaining == 0
    ensures Kept(t, h, places, paid)
  {
    hide OnOpen, OnStat, OnRead, OnClose, RequestWallTimeout, IssueNextFromEngine, CloseNow, IssueNext, Released;
    ReadIdle(t, h, places, paid);
    ReadIssues(t, h);
    IssueNextShape(Counted(t, h.got), Deliver(t.owed, h), h.accept, h.draws);
  }

  lemma ReadShape(t: Track, h: Handler, places: nat, paid: nat)
    requires h.ReadReply? && Shape(t, places, paid) && Possible(t, h)
    ensures Kept(t, h, places, paid)
  {
    hide OnOpen, OnStat, OnClose, RequestWallTimeout, IssueNextFromEngine, CloseNow, IssueNext;
    if t.s.completed || !h.ok {
    } else if Counted(t, h.got).remaining == 0 {
      ReadIssueShape(t, h, places, paid);
    } else {
      ReadParkShape(t, h, places, paid);
    }
  }

  lemma EngineShape(t: Track, h: Handler, places: nat, paid: nat)
    requires h.Custodial() && Shape(t, places, paid) && Lawful(h, places, paid)
    ensures Kept(t, h, places, paid)
  {
    hide OpBytes, FullOpBytes, Fits, ReadList, TotalLen;
    hide OnOpen, OnStat, OnRead, OnClose, RequestWallTimeout;
    if !t.s.completed {
      if h.EngineIssue? {
        IssueNextShape(t.s, t.owed, h.accept, h.draws);
      } else {
        SubmitCloseShape(t.s.(remaining := 0), t.owed, h.accept);
      }
    }
  }

  lemma CloseShape(t: Track, h: Handler, places: nat, paid: nat)
    requires h.CloseReply? && Shape(t, places, paid) && Possible(t, h)
    ensures Kept(t, h, places, paid)
  {
    hide OpBytes, FullOpBytes, Fits, ReadList, TotalLen;
    hide OnOpen, OnStat, OnRead, RequestWallTimeout, IssueNextFromEngine, CloseNow, IssueNext;
  }

  lemma TimeoutShape(t: Track, h: Handler, places: nat, paid: nat)
    requires h.WallTimeout? && Shape(t, places, paid)
    ensures Kept(t, h, places, paid)
  {
    hide OpBytes, FullOpBytes, Fits, ReadList, TotalLen;
    hide OnOpen, OnStat, OnRead, OnClose, IssueNextFromEngine, CloseNow, IssueNext;
  }

  ghost predicate Kept(t: Track, h: Handler, places: nat, paid: nat)
    requires Possible(t, h)
  {
    var (t', fx) := Advance(t, h);
    && Shape(t', PlacesAfter(h, places, fx), PaidAfter(h, paid))
    && Coherent(t.s, t'.s, t'.owed, fx)
  }

  /** While a custodian holds a session, nobody else changes its next read. */
  lemma ParkedPriceStays(t: Track, h: Handler, places: nat, paid: nat)
    requires Shape(t, places, paid) && Possible(t, h) && places == 1 && !h.Custodial()
    ensures NextOpBytes(Advance(t, h).0.s) == NextOpBytes(t.s)
  {
    hide OnOpen, OnStat, OnRead, IssueNextFromEngine, CloseNow, IssueNext, OpBytes, FullOpBytes, Fits;
  }

  /** Whatever happens next, the shape of the session is kept. */
  lemma AdvanceShape(t: Track, h: Handler, places: nat, paid: nat)
    requires Shape(t, places, paid) && Possible(t, h) && Lawful(h, places, paid)
    ensures Kept(t, h, places, paid)
  {
    hide Shape, Kept;
    match h
    case OpenReply(_, _) => OpenShape(t, h, places, paid);
    case StatReply(_, _, _, _) => StatShape(t, h, places, paid);
    case ReadReply(_, _, _, _) => ReadShape(t, h, places, paid);
    case CloseReply(_) => CloseShape(t, h, places, paid);
    case WallTimeout(_) => TimeoutShape(t, h, places, paid);
    case EngineIssue(_, _, _) => EngineShape(t, h, places, paid);
    case EngineClose(_) => EngineShape(t, h, places, paid);
  }

  // ---------------------------------------------------------------- the ledger is kept

  /** Submitting the next operation moves tokens but loses none. */
  lemma IssueTokens(s: Session, o: Owed, accept: bool, draws: seq<nat>)
    requires Idle(s, o)
    requires s.issuedRead ==> s.prepaid == 0
    ensures var (s', fx) := Released(IssueNext(s, accept, draws));
            var asked := if s.timedOut then 0 else Min(OpBytes(s.opts), s.remaining);
            && s'.bytesRead == s.bytesRead && s'.timedOut == s.timedOut && s'.opts == s.opts
            && (asked == 0 ==> fx.refunded + s'.prepaid == s.prepaid && fx.accepted != Some(ReadOp))
            && (asked > 0 ==> s'.prepaid == 0 && fx.refunded + (if fx.accepted == Some(ReadOp) then s'.requested else 0)
                                                 == Max(s.prepaid, asked))
            && (fx.accepted == None || fx.accepted == Some(ReadOp) || fx.accepted == Some(CloseOp))
  {
    FitsOpBytes(s.opts);
    hide OpBytes, FullOpBytes, Fits;
    var s1 := if s.timedOut then s.(remaining := 0) else s;
    if s1.remaining == 0 {
    } else {
      ReadTotal(s1, draws);
      hide ReadList, TotalLen;
      var asked := Min(OpBytes(s.opts), s.remaining);
    }
  }

  /** Tokens a session answers for: counted bytes, unspent prepaid, read in flight. */
  function Tied(s: Session, readOwed: nat): nat {
    s.bytesRead + s.prepaid + if readOwed > 0 then s.requested else 0
  }

  function ChargeOf(h: Handler): nat {
    if h.EngineIssue? then h.charge else 0
  }

  /** One handler moves tokens between the session, the bucket and the forfeit,
      and creates or loses none. */
  ghost predicate Balanced(t: Track, h: Handler)
    requires Possible(t, h)
  {
    var (s', fx) := Handle(t.s, h);
    && Tied(t.s, t.owed.read) + ChargeOf(h)
       == Tied(s', Deliver(t.owed, h).Add(fx.accepted).read) + fx.refunded + Swallowed(t.s, h)
    && (t.s.timedOut ==> s'.timedOut)
    && s'.bytesRead == t.s.bytesRead + (if h.ReadReply? && h.ok && !t.s.completed then h.got else 0)
    && s'.opts == t.s.opts
  }

  lemma StatBalanced(t: Track, h: Handler, places: nat, paid: nat)
    requires h.StatReply? && Shape(t, places, paid) && Possible(t, h) && !t.s.completed
    requires t.s.prepaid >= OpBytes(t.s.opts)
    ensures Balanced(t, h)
  {
    hide OnOpen, OnRead, OnClose, RequestWallTimeout, IssueNextFromEngine, CloseNow;
    StatIdle(t, h, places, paid);
    hide Shape, Core, OpBytes, FullOpBytes, Fits, Idle, IssueNext, ReadList, TotalLen;
    if h.ok && Plannable(t.s.opts, h.size) {
      IssueTokens(Planned(t.s, h.size), Deliver(t.owed, h), h.accept, h.draws);
      StatIssues(t.s, h.size, h.accept, h.draws);
      hide OnStat;
    }
  }

  lemma ReadFailBalanced(t: Track, h: Handler, places: nat, paid: nat)
    requires h.ReadReply? && Shape(t, places, paid) && Possible(t, h) && !t.s.completed && !h.ok
    ensures Balanced(t, h)
  {
    hide OnOpen, OnStat, OnClose, RequestWallTimeout, IssueNextFromEngine, CloseNow, IssueNext;
    hide Shape, OpBytes, FullOpBytes, Fits;
    ReadIdle(t, h, places, paid);
    assert Counted(t, h.got).paced == t.s.paced;
  }

  lemma ReadBalanced(t: Track, h: Handler, places: nat, paid: nat)
    requires h.ReadReply? && Shape(t, places, paid) && Possible(t, h) && !t.s.completed
    ensures Balanced(t, h)
  {
    hide OnOpen, OnStat, OnClose, RequestWallTimeout, IssueNextFromEngine, CloseNow, IssueNext, OnRead, Released;
    hide Shape, OpBytes, FullOpBytes, Fits;
    ReadIdle(t, h, places, paid);
    var read := Counted(t, h.got);
    if !h.ok {
      ReadFailBalanced(t, h, places, paid);
    } else if read.remaining == 0 {
      ReadIssues(t, h);
      IssueTokens(read, Deliver(t.owed, h), h.accept, h.draws);
    } else {
      ReadParks(t, h);
    }
  }

  lemma OpenBalanced(t: Track, h: Handler, places: nat, paid: nat)
    requires h.OpenReply? && Shape(t, places, paid) && Possible(t, h)
    ensures Balanced(t, h)
  {
    hide OnStat, OnRead, OnClose, RequestWallTimeout, IssueNextFromEngine, CloseNow, IssueNext;
    hide OpBytes, FullOpBytes, Fits;
  }

  lemma CloseBalanced(t: Track, h: Handler, places: nat, paid: nat)
    requires h.CloseReply? && Shape(t, places, paid) && Possible(t, h)
    ensures Balanced(t, h)
  {
    hide OnOpen, OnStat, OnRead, RequestWallTimeout, IssueNextFromEngine, CloseNow, IssueNext;
    hide OpBytes, FullOpBytes, Fits;
  }

  lemma AskBalanced(t: Track, h: Handler, places: nat, paid: nat)
    requires h.WallTimeout? || h.EngineClose?
    requires Shape(t, places, paid)
    ensures Balanced(t, h)
  {
    hide OnOpen, OnStat, OnRead, OnClose, IssueNextFromEngine, IssueNext;
    hide OpBytes, FullOpBytes, Fits;
  }

  lemma IssueBalanced(t: Track, h: Handler, places: nat, paid: nat)
    requires h.EngineIssue? && Shape(t, places, paid) && Lawful(h, places, paid)
    ensures Balanced(t, h)
  {
    hide OnOpen, OnStat, OnRead, OnClose, RequestWallTimeout, CloseNow;
    FitsOpBytes(t.s.opts);
    hide OpBytes, FullOpBytes, Fits, ReadList, TotalLen;
    if !t.s.completed {
      IssueTokens(t.s, t.owed, h.accept, h.draws);
      hide IssueNext;
    }
  }

  lemma AllBalanced(t: Track, h: Handler, places: nat, paid: nat)
    requires Shape(t, places, paid) && Possible(t, h) && Lawful(h, places, paid) && Ledger(t, paid)
    ensures Balanced(t, h)
  {
    if h.StatReply? && !t.s.completed {
      StatBalanced(t, h, places, paid);
    } else if h.ReadReply? && !t.s.completed {
      ReadBalanced(t, h, places, paid);
    } else if h.EngineIssue? {
      IssueBalanced(t, h, places, paid);
    } else if h.OpenReply? {
      OpenBalanced(t, h, places, paid);
    } else if h.CloseReply? {
      CloseBalanced(t, h, places, paid);
    } else if h.WallTimeout? || h.EngineClose? {
      AskBalanced(t, h, places, paid);
    }
  }

  /** Whatever happens next, the books still balance. */
  lemma AdvanceLedger(t: Track, h: Handler, places: nat, paid: nat)
    requires Shape(t, places, paid) && Possible(t, h) && Lawful(h, places, paid) && Ledger(t, paid)
    ensures Ledger(Advance(t, h).0, PaidAfter(h, paid))
  {
    AllBalanced(t, h, places, paid);
    AdvancePrepaid(t, h, places, paid);
    SwallowedFacts(t, h, places, paid);
    hide Shape, OpBytes, Handle;
  }

  lemma OpenPrepaid(t: Track, h: Handler, places: nat, paid: nat)
    requires h.OpenReply? && Shape(t, places, paid) && Possible(t, h) && Ledger(t, paid)
    ensures PrepaidStays(Advance(t, h).0)
  {
    hide OnStat, OnRead, OnClose, RequestWallTimeout, IssueNextFromEngine, CloseNow, IssueNext;
    hide OpBytes, FullOpBytes, Fits;
  }

  lemma IssueAccepts(s: Session, accept: bool, draws: seq<nat>)
    ensures var fx := IssueNext(s, accept, draws).1;
            fx.accepted == None || fx.accepted == Some(ReadOp) || fx.accepted == Some(CloseOp)
  {
    hide ReadList, TotalLen;
  }

  lemma StatPrepaid(t: Track, h: Handler, places: nat, paid: nat)
    requires h.StatReply? && Shape(t, places, paid) && Possible(t, h)
    ensures PrepaidStays(Advance(t, h).0)
  {
    hide OnOpen, OnRead, OnClose, RequestWallTimeout, IssueNextFromEngine, CloseNow;
    hide OpBytes, FullOpBytes, Fits;
    if !t.s.completed && h.ok && Plannable(t.s.opts, h.size) {
      StatIssues(t.s, h.size, h.accept, h.draws);
      IssueAccepts(Planned(t.s, h.size), h.accept, h.draws);
      hide OnStat, IssueNext, PlannedBytes;
    }
  }

  lemma ReadPrepaid(t: Track, h: Handler, places: nat, paid: nat)
    requires h.ReadReply? && Shape(t, places, paid) && Possible(t, h)
    ensures PrepaidStays(Advance(t, h).0)
  {
    hide OnOpen, OnStat, OnClose, RequestWallTimeout, IssueNextFromEngine, CloseNow;
    hide OpBytes, FullOpBytes, Fits;
    IssueAccepts(Counted(t, h.got), h.accept, h.draws);
    hide IssueNext, Absorb;
  }

  lemma AskPrepaid(t: Track, h: Handler, places: nat, paid: nat)
    requires h.WallTimeout? || h.CloseReply?
    requires Shape(t, places, paid) && Possible(t, h) && Ledger(t, paid)
    ensures PrepaidStays(Advance(t, h).0)
  {
    hide OnOpen, OnStat, OnRead, IssueNextFromEngine, CloseNow, IssueNext;
    hide OpBytes, FullOpBytes, Fits;
  }

  lemma EnginePrepaid(t: Track, h: Handler, places: nat, paid: nat)
    requires h.Custodial() && Shape(t, places, paid) && Lawful(h, places, paid)
    ensures PrepaidStays(Advance(t, h).0)
  {
    hide OnOpen, OnStat, OnRead, OnClose, RequestWallTimeout;
    hide OpBytes, FullOpBytes, Fits, ReadList, TotalLen;
  }

  /** Until the first read, the session keeps the tokens the engine paid for it. */
  ghost predicate PrepaidStays(t: Track) {
    t.owed.open + t.owed.stat > 0 && !t.s.completed ==> t.s.prepaid >= OpBytes(t.s.opts)
  }

  lemma AdvancePrepaid(t: Track, h: Handler, places: nat, paid: nat)
    requires Shape(t, places, paid) && Possible(t, h) && Lawful(h, places, paid) && Ledger(t, paid)
    ensures PrepaidStays(Advance(t, h).0)
  {
    hide Shape, Ledger, Lawful, PrepaidStays, Handle;
    if h.OpenReply? {
      OpenPrepaid(t, h, places, paid);
    } else if h.StatReply? {
      StatPrepaid(t, h, places, paid);
    } else if h.ReadReply? {
      ReadPrepaid(t, h, places, paid);
    } else if h.Custodial() {
      EnginePrepaid(t, h, places, paid);
    } else {
      AskPrepaid(t, h, places, paid);
    }
  }

  lemma SwallowedFacts(t: Track, h: Handler, places: nat, paid: nat)
    requires Shape(t, places, paid) && Possible(t, h) && Lawful(h, places, paid)
    ensures Swallowed(t.s, h) > 0 ==> t.s.timedOut
    ensures h.Custodial() ==> paid == ChargeOf(h)
    ensures h.ReadReply? && !t.s.completed ==> Swallowed(t.s, h) == 0
    ensures h.ReadReply? && t.s.completed ==> h.got <= Swallowed(t.s, h)
  {
    hide OpBytes, FullOpBytes, Fits;
  }

  lemma BeginShape(opts: Options, prepaid: nat, accept: bool)
    requires Fits(opts)
    ensures var (t, fx) := Begin(opts, prepaid, accept);
            Shape(t, 0, 0) && t.s.opts == opts && !fx.parked && (fx.done.Some? <==> t.s.completed)
  {
  }

  lemma BeginLedger(opts: Options, prepaid: nat, accept: bool)
    requires prepaid >= OpBytes(opts)
    ensures Ledger(Begin(opts, prepaid, accept).0, 0)
  {
  }

  lemma BeginTiles(opts: Options, prepaid: nat, accept: bool)
    ensures Counts(Begin(opts, prepaid, accept).0) && Layout(Begin(opts, prepaid, accept).0)
  {
    TimesZero(OpBytes(opts));
  }

  // ---------------------------------------------------------------- consequences

  /** A session that never timed out is charged, when it ends, exactly what it reports. */
  lemma NetChargeIsReported(t: Track, places: nat, paid: nat)
    requires Shape(t, places, paid) && Ledger(t, paid) && t.s.completed && !t.s.timedOut
    ensures t.charged - t.refunded == t.s.result.bytesRead == t.delivered
  {
  }

  /** At every moment the tokens kept cover every byte the server returned,
      the read in flight, and everything that may still be refunded. */
  lemma TokensCoverDelivery(t: Track, places: nat, paid: nat)
    requires Shape(t, places, paid) && Ledger(t, paid)
    ensures t.charged >= t.refunded + t.delivered
    ensures !t.s.completed ==> t.charged >= t.refunded + t.s.bytesRead + InFlight(t) + t.s.prepaid
  {
  }

  // ---------------------------------------------------------------- reads tile the file

  /** The bytes of n full-sized reads. */
  function Times(n: nat, op: nat): nat {
    n * op
  }

  lemma TimesZero(op: nat)
    ensures Times(0, op) == 0
  {
  }

  lemma TimesNext(n: nat, op: nat)
    ensures Times(n + 1, op) == Times(n, op) + op
  {
  }

  /** The counters against the plan made after Stat. */
  ghost predicate Counts(t: Track) {
    var s, op := t.s, OpBytes(t.s.opts);
    && (s.budgetSet ==> t.budget == PlannedBytes(s.opts, s.fileSize) && Plannable(s.opts, s.fileSize))
    && (!s.budgetSet ==> s.bytesRead == 0 && s.ops == 0)
    && (s.budgetSet ==> s.bytesRead + s.remaining <= t.budget)
    && (s.budgetSet && !t.short && !t.cut && !s.timedOut ==> s.bytesRead + s.remaining == t.budget)
    && (s.remaining > 0 ==> s.bytesRead == Times(s.ops, op))
    && s.bytesRead <= Times(s.ops, op)
    && (s.ops > 0 ==> Times(s.ops - 1, op) < t.budget)
    && (s.budgetSet && !s.opts.randomOffset ==> s.nextOffset == s.opts.offset + s.bytesRead)
  }

  /** The reads issued so far: inside the file, within the chunk size, and for
      sequential sessions one after the other from the start offset. */
  ghost predicate Layout(t: Track) {
    var s := t.s;
    && (!s.budgetSet ==> t.issued == [])
    && InFile(t.issued, s.fileSize) && Sized(t.issued, s.opts.chunkSize)
    && (!s.opts.randomOffset ==> Abut(t.issued, s.opts.offset))
    && (s.remaining > 0 && !s.completed ==> TotalLen(t.issued) == s.bytesRead + InFlight(t))
    && Answered(t) && InBuffer(t.issued, OpBytes(s.opts))
  }

  /** While no read came back short, what was asked for is what was counted and
      what is in flight; a session that ended otherwise may have lost a reply. */
  ghost predicate Answered(t: Track) {
    !t.short && (!t.s.completed || t.s.result.ok) ==> TotalLen(t.issued) == t.s.bytesRead + InFlight(t)
  }

  /** A plan never reaches past the end of the file. */
  lemma PlannedFits(o: Options, size: nat)
    ensures PlannedBytes(o, size) <= size
    ensures Plannable(o, size) && !o.randomOffset ==> o.offset + PlannedBytes(o, size) <= size
  {
  }

  /** What IssueNext leaves alone, and what it asks for. */
  lemma IssueChanges(s: Session, accept: bool, draws: seq<nat>)
    requires !s.completed
    ensures var (s', fx) := Released(IssueNext(s, accept, draws));
            && s'.opts == s.opts && s'.fileSize == s.fileSize && s'.bytesRead == s.bytesRead && s'.ops == s.ops
            && s'.budgetSet == s.budgetSet && s'.timedOut == s.timedOut
            && s'.remaining == (if s.timedOut then 0 else s.remaining)
            && (!s.opts.randomOffset ==> s'.nextOffset == s.nextOffset)
            && (fx.accepted == Some(ReadOp) ==> !s.timedOut && s.remaining > 0 && fx.chunks == ReadList(s, draws)
                                                && s'.requested == TotalLen(fx.chunks))
            && (fx.accepted != Some(ReadOp) ==> fx.chunks == [])
            && (s'.remaining > 0 && !s'.completed ==> fx.accepted == Some(ReadOp))
            && (s'.completed ==> !s'.result.ok)
  {
    if s.timedOut || s.remaining == 0 {
      var s1 := DropPrepaid(if s.timedOut then s.(remaining := 0) else s);
      SubmitCloseSameReads(s1, accept);
      hide SubmitClose, ReadList;
    } else {
      hide SubmitClose;
      ReadTotal(s, draws);
      hide ReadList, TotalLen, OpBytes, FullOpBytes;
    }
  }

  function Issued(t: Track, accept: bool, draws: seq<nat>): Track {
    var (s', fx) := Released(IssueNext(t.s, accept, draws));
    t.(s := s', owed := t.owed.Add(fx.accepted), issued := t.issued + fx.chunks)
  }

  lemma IssueCounts(t: Track, accept: bool, draws: seq<nat>)
    requires !t.s.completed && t.s.budgetSet && Counts(t)
    ensures Counts(Issued(t, accept, draws))
  {
    IssueChanges(t.s, accept, draws);
    hide IssueNext, Released, PlannedBytes, Times, OpBytes, FullOpBytes, ReadList, TotalLen;
  }

  lemma IssuedIs(t: Track, accept: bool, draws: seq<nat>)
    requires !t.s.completed && t.owed.read == 0
    ensures var u, (s', fx) := Issued(t, accept, draws), Released(IssueNext(t.s, accept, draws));
            && u.s == s' && u.issued == t.issued + fx.chunks && u.short == t.short
            && (u.owed.read > 0 <==> fx.accepted == Some(ReadOp))
  {
    hide IssueNext, Released;
  }

  lemma IssueLayout(t: Track, accept: bool, draws: seq<nat>)
    requires Idle(t.s, t.owed) && t.s.budgetSet && Counts(t) && Layout(t)
    ensures Layout(Issued(t, accept, draws))
  {
    hide Issued, IssueNext, Released, OpBytes, ReadList, TotalLen, Counts, Layout;
    IssueChanges(t.s, accept, draws);
    IssuedIs(t, accept, draws);
    var u, cs := Issued(t, accept, draws), Released(IssueNext(t.s, accept, draws)).1.chunks;
    if u.owed.read > 0 {
      IssueExtends(t, cs, draws);
    }
    LayoutNext(t, u, cs);
  }

  /** The layout after a read of `cs` was issued, or after none was. */
  lemma LayoutNext(t: Track, u: Track, cs: seq<Chunk>)
    requires Layout(t) && !t.s.completed && t.owed.read == 0 && t.s.budgetSet && u.issued == t.issued + cs
    requires u.s.opts == t.s.opts && u.s.fileSize == t.s.fileSize && u.s.bytesRead == t.s.bytesRead
    requires u.s.budgetSet && u.short == t.short
    requires u.owed.read > 0 ==> u.s.requested == TotalLen(cs) && Extends(t, cs)
    requires u.owed.read == 0 ==>
               cs == [] && (u.s.remaining > 0 ==> u.s.completed) && (u.s.completed ==> !u.s.result.ok)
    ensures Layout(u)
  {
    hide OpBytes, TotalLen, InFile, Sized, Abut, InBuffer;
    assert t.issued + [] == t.issued;
  }

  /** Reading `cs` next goes on from what was issued so far. */
  ghost predicate Extends(t: Track, cs: seq<Chunk>) {
    && InFile(t.issued + cs, t.s.fileSize) && Sized(t.issued + cs, t.s.opts.chunkSize)
    && (!t.s.opts.randomOffset ==> Abut(t.issued + cs, t.s.opts.offset))
    && TotalLen(t.issued + cs) == t.s.bytesRead + TotalLen(cs)
    && InBuffer(t.issued + cs, OpBytes(t.s.opts))
  }

  lemma IssueExtends(t: Track, cs: seq<Chunk>, draws: seq<nat>)
    requires t.owed.read == 0 && !t.s.completed && Fits(t.s.opts) && t.s.opts.chunkSize >= 1
    requires t.s.budgetSet && t.s.remaining > 0
    requires Counts(t) && Layout(t) && cs == ReadList(t.s, draws)
    ensures Extends(t, cs)
  {
    hide OpBytes, FullOpBytes, Times, PlannedBytes, Fits;
    PlannedFits(t.s.opts, t.s.fileSize);
    ReadLayout(t.s, draws);
    FitsOpBytes(t.s.opts);
    SlicesInBuffer(t.s, draws);
    TotalAppend(t.issued, cs);
    SpreadAppend(t.issued, cs, t.s.fileSize, t.s.opts.chunkSize);
    if !t.s.opts.randomOffset {
      AbutAppend(t.issued, cs, t.s.opts.offset);
    }
  }

  lemma SpreadAppend(a: seq<Chunk>, b: seq<Chunk>, fileSize: nat, chunkSize: nat)
    requires InFile(a, fileSize) && InFile(b, fileSize) && Sized(a, chunkSize) && Sized(b, chunkSize)
    ensures InFile(a + b, fileSize) && Sized(a + b, chunkSize)
  {
  }

  /** The track when Stat has been answered and the plan is made. */
  function AfterStat(t: Track, size: nat): Track
    requires t.owed.stat > 0
  {
    t.(s := Planned(t.s, size), owed := t.owed.(stat := t.owed.stat - 1), budget := PlannedBytes(t.s.opts, size))
  }

  /** The track when a read reply has been counted. */
  function AfterRead(t: Track, got: nat): Track
    requires t.owed.read > 0
  {
    t.(s := Counted(t, got), owed := t.owed.(read := t.owed.read - 1), short := t.short || got < t.s.requested)
  }

  lemma AfterStatTiles(t: Track, size: nat)
    requires t.owed.stat > 0 && !t.s.completed && Plannable(t.s.opts, size)
    requires !t.s.budgetSet && t.s.remaining == 0 && t.owed.read == 0 && Counts(t) && Layout(t)
    ensures Counts(AfterStat(t, size)) && Layout(AfterStat(t, size))
  {
    TimesZero(OpBytes(t.s.opts));
    hide OpBytes, FullOpBytes, Times, PlannedBytes;
  }

  lemma AfterReadCounts(t: Track, got: nat)
    requires t.owed.read == 1 && t.s.budgetSet && got <= t.s.requested && Counts(t)
    requires 0 < t.s.requested == Min(OpBytes(t.s.opts), t.s.remaining)
    requires Counted(t, got).remaining == if got < t.s.requested then 0 else t.s.remaining - got
    ensures Counts(AfterRead(t, got))
  {
    TimesNext(t.s.ops, OpBytes(t.s.opts));
    hide OpBytes, FullOpBytes, Times, PlannedBytes;
  }

  lemma AfterReadLayout(t: Track, got: nat)
    requires t.owed.read == 1 && t.s.budgetSet && got <= t.s.requested && !t.s.completed && Layout(t)
    requires 0 < t.s.requested <= t.s.remaining
    requires Counted(t, got).remaining == if got < t.s.requested then 0 else t.s.remaining - got
    ensures Layout(AfterRead(t, got))
  {
    hide Abut, InFile, Sized, TotalLen;
  }

  /** The parts of a track that the plan is about. */
  ghost predicate SamePlan(t: Track, u: Track) {
    && t.s == u.s && t.owed == u.owed && t.issued == u.issued && t.budget == u.budget
    && t.short == u.short && (u.cut ==> t.cut)
  }

  lemma SamePlanTiles(t: Track, u: Track)
    requires SamePlan(t, u) && Counts(u) && Layout(u)
    ensures Counts(t) && Layout(t)
  {
    hide OpBytes, FullOpBytes, Times, PlannedBytes, TotalLen;
  }

  lemma StatAdvance(t: Track, h: Handler)
    requires h.StatReply? && h.ok && !t.s.completed && Plannable(t.s.opts, h.size) && Possible(t, h)
    ensures SamePlan(Advance(t, h).0, Issued(AfterStat(t, h.size), h.accept, h.draws))
  {
    hide OnOpen, OnRead, OnClose, RequestWallTimeout, IssueNextFromEngine, CloseNow, IssueNext;
    StatIssues(t.s, h.size, h.accept, h.draws);
    hide IssueNext, OnStat, Planned, PlannedBytes;
  }

  lemma ReadAdvance(t: Track, h: Handler)
    requires h.ReadReply? && h.ok && !t.s.completed && t.s.paced && Possible(t, h)
    requires Counted(t, h.got).remaining == 0
    ensures SamePlan(Advance(t, h).0, Issued(AfterRead(t, h.got), h.accept, h.draws))
  {
    hide OnOpen, OnStat, OnClose, RequestWallTimeout, IssueNextFromEngine, CloseNow, IssueNext, Absorb;
  }

  lemma ParkAdvance(t: Track, h: Handler)
    requires h.ReadReply? && h.ok && !t.s.completed && t.s.paced && Possible(t, h)
    requires Counted(t, h.got).remaining > 0
    ensures SamePlan(Advance(t, h).0, AfterRead(t, h.got)) && Advance(t, h).1.parked
  {
    hide OnOpen, OnStat, OnClose, RequestWallTimeout, IssueNextFromEngine, CloseNow, IssueNext;
    assert t.issued + [] == t.issued;
  }

  lemma StatTiles(t: Track, h: Handler, places: nat, paid: nat)
    requires h.StatReply? && h.ok && !t.s.completed && Plannable(t.s.opts, h.size)
    requires Shape(t, places, paid) && Possible(t, h) && Counts(t) && Layout(t)
    ensures Counts(Advance(t, h).0) && Layout(Advance(t, h).0)
  {
    var mid := AfterStat(t, h.size);
    StatIdle(t, h, places, paid);
    assert !t.s.budgetSet && t.s.remaining == 0;
    AfterStatTiles(t, h.size);
    IssueCounts(mid, h.accept, h.draws);
    IssueLayout(mid, h.accept, h.draws);
    StatAdvance(t, h);
    SamePlanTiles(Advance(t, h).0, Issued(mid, h.accept, h.draws));
  }

  lemma ReadTiles(t: Track, h: Handler, places: nat, paid: nat)
    requires h.ReadReply? && h.ok && !t.s.completed
    requires Shape(t, places, paid) && Possible(t, h) && Counts(t) && Layout(t)
    ensures Counts(Advance(t, h).0) && Layout(Advance(t, h).0)
  {
    var mid := AfterRead(t, h.got);
    ReadIdle(t, h, places, paid);
    AfterReadCounts(t, h.got);
    AfterReadLayout(t, h.got);
    hide Counts, Layout, SamePlan;
    if mid.s.remaining == 0 {
      ReadAdvance(t, h);
      IssueCounts(mid, h.accept, h.draws);
      IssueLayout(mid, h.accept, h.draws);
      SamePlanTiles(Advance(t, h).0, Issued(mid, h.accept, h.draws));
    } else {
      ParkAdvance(t, h);
      SamePlanTiles(Advance(t, h).0, mid);
    }
  }

  lemma EngineIdle(t: Track, h: Handler, places: nat, paid: nat)
    requires h.EngineIssue? && !t.s.completed && Shape(t, places, paid) && Lawful(h, places, paid)
    ensures Idle(t.s, t.owed) && t.s.budgetSet
  {
  }

  lemma EngineAdvance(t: Track, h: Handler)
    requires h.EngineIssue? && !t.s.completed
    ensures SamePlan(Advance(t, h).0, Issued(t, h.accept, h.draws))
  {
    hide OnOpen, OnStat, OnRead, OnClose, RequestWallTimeout, CloseNow, IssueNext;
    hide IssueNext;
  }

  lemma EngineTiles(t: Track, h: Handler, places: nat, paid: nat)
    requires h.EngineIssue? && !t.s.completed
    requires Shape(t, places, paid) && Lawful(h, places, paid) && Counts(t) && Layout(t)
    ensures Counts(Advance(t, h).0) && Layout(Advance(t, h).0)
  {
    EngineIdle(t, h, places, paid);
    hide Shape, Counts, Layout, SamePlan;
    EngineAdvance(t, h);
    IssueCounts(t, h.accept, h.draws);
    IssueLayout(t, h.accept, h.draws);
    SamePlanTiles(Advance(t, h).0, Issued(t, h.accept, h.draws));
  }

  /** Handlers that issue no read and count no bytes. */
  ghost predicate IssuesNothing(t: Track, h: Handler) {
    && (h.StatReply? ==> t.s.completed || !h.ok || !Plannable(t.s.opts, h.size))
    && (h.ReadReply? ==> t.s.completed || !h.ok)
    && (h.EngineIssue? ==> t.s.completed)
  }

  /** Such a handler keeps the plan, except that CloseNow gives up what remains. */
  ghost predicate PlanKept(s: Session, h: Handler, s': Session, fx: Fx) {
    && fx.chunks == [] && fx.accepted != Some(ReadOp)
    && s'.opts == s.opts && s'.bytesRead == s.bytesRead && s'.ops == s.ops
    && s'.budgetSet == s.budgetSet && s'.nextOffset == s.nextOffset
    && (s.completed ==> s'.completed) && (s.timedOut ==> s'.timedOut)
    && (s'.remaining == s.remaining || (h.EngineClose? && s'.remaining == 0))
    && (h.StatReply? && !s.completed ==> s'.completed)
    && (!h.StatReply? || s.completed ==> s'.fileSize == s.fileSize)
    && (h.ReadReply? ==> s'.completed)
    && (!h.ReadReply? ==> s'.requested == s.requested)
    && (s.completed ==> s'.result == s.result)
    && (h.ReadReply? && !s.completed ==> !s'.result.ok)
  }

  /** The read counters are untouched and no read is issued. */
  ghost predicate SameReads(s: Session, s': Session, fx: Fx) {
    && fx.chunks == [] && fx.accepted != Some(ReadOp)
    && s'.opts == s.opts && s'.bytesRead == s.bytesRead && s'.ops == s.ops
    && s'.budgetSet == s.budgetSet && s'.nextOffset == s.nextOffset && s'.remaining == s.remaining
    && s'.fileSize == s.fileSize && s'.requested == s.requested
    && (s.completed ==> s'.completed) && s'.timedOut == s.timedOut
  }

  lemma SubmitCloseSameReads(s: Session, accept: bool)
    ensures SameReads(s, SubmitClose(s, accept).0, SubmitClose(s, accept).1)
  {
  }

  lemma FinishSameReads(s: Session, r: Report, fx: Fx)
    requires fx.chunks == [] && fx.accepted != Some(ReadOp)
    ensures SameReads(s, Finish(s, r, fx).0, Finish(s, r, fx).1) && Finish(s, r, fx).0.completed
  {
  }

  lemma FailSameReads(s: Session)
    ensures SameReads(s, Fail(s).0, Fail(s).1) && Fail(s).0.completed
  {
  }

  lemma ReleasedSameReads(s: Session, out: (Session, Fx))
    requires SameReads(s, out.0, out.1)
    ensures SameReads(s, Released(out).0, Released(out).1)
    ensures Released(out).0.completed == out.0.completed && Released(out).0.result == out.0.result
  {
  }

  lemma OpenKeepsPlan(s: Session, h: Handler)
    requires h.OpenReply?
    ensures PlanKept(s, h, OnOpen(s, h.ok, h.accept).0, OnOpen(s, h.ok, h.accept).1)
  {
    hide SubmitClose;
    var s1 := s.(pending := s.pending - 1);
    if !s1.completed && h.ok && s1.timedOut {
      SubmitCloseSameReads(s1, h.accept);
      ReleasedSameReads(s1, SubmitClose(s1, h.accept));
    }
  }

  lemma StatKeepsPlan(s: Session, h: Handler)
    requires h.StatReply? && (s.completed || !h.ok || !Plannable(s.opts, h.size))
    ensures PlanKept(s, h, OnStat(s, h.ok, h.size, h.accept, h.draws).0, OnStat(s, h.ok, h.size, h.accept, h.draws).1)
  {
    hide IssueNext;
  }

  lemma ReadKeepsPlan(s: Session, h: Handler)
    requires h.ReadReply? && (s.completed || !h.ok)
    ensures PlanKept(s, h, OnRead(s, h.ok, h.got, h.accept, h.draws).0, OnRead(s, h.ok, h.got, h.accept, h.draws).1)
  {
    hide IssueNext, Absorb;
  }

  lemma CloseKeepsPlan(s: Session, h: Handler)
    requires h.CloseReply?
    ensures PlanKept(s, h, OnClose(s, h.ok).0, OnClose(s, h.ok).1)
  {
    hide Finish, Fail, Released;
    var s1 := s.(pending := s.pending - 1);
    if !s1.completed {
      FailSameReads(s1);
      ReleasedSameReads(s1, Fail(s1));
      FinishSameReads(s1, Report(false, true, s1.bytesRead, s1.ops), QUIET);
      ReleasedSameReads(s1, Finish(s1, Report(false, true, s1.bytesRead, s1.ops), QUIET));
      FinishSameReads(s1, Report(true, false, s1.bytesRead, s1.ops), QUIET);
      ReleasedSameReads(s1, Finish(s1, Report(true, false, s1.bytesRead, s1.ops), QUIET));
    } else {
      ReleasedSameReads(s1, (s1, QUIET));
    }
  }

  lemma TimeoutKeepsPlan(s: Session, h: Handler)
    requires h.WallTimeout?
    ensures PlanKept(s, h, RequestWallTimeout(s, h.accept).0, RequestWallTimeout(s, h.accept).1)
  {
    var s1 := s.(timedOut := true);
    SubmitCloseSameReads(s1, h.accept);
    ReleasedSameReads(s1, SubmitClose(s1, h.accept));
    hide SubmitClose, Released;
  }

  lemma CloseNowKeepsPlan(s: Session, h: Handler)
    requires h.EngineClose?
    ensures PlanKept(s, h, CloseNow(s, h.accept).0, CloseNow(s, h.accept).1)
  {
    if s.completed {
      ReleasedSameReads(s, (s, QUIET));
    } else {
      var s1 := s.(remaining := 0);
      SubmitCloseSameReads(s1, h.accept);
      ReleasedSameReads(s1, SubmitClose(s1, h.accept));
    }
    hide SubmitClose, Released;
  }

  lemma HandleKeepsPlan(t: Track, h: Handler)
    requires IssuesNothing(t, h)
    ensures PlanKept(t.s, h, Handle(t.s, h).0, Handle(t.s, h).1)
  {
    hide PlanKept, OnOpen, OnStat, OnRead, OnClose, RequestWallTimeout, CloseNow;
    match h
    case OpenReply(_, _) => OpenKeepsPlan(t.s, h);
    case StatReply(_, _, _, _) => StatKeepsPlan(t.s, h);
    case ReadReply(_, _, _, _) => ReadKeepsPlan(t.s, h);
    case CloseReply(_) => CloseKeepsPlan(t.s, h);
    case WallTimeout(_) => TimeoutKeepsPlan(t.s, h);
    case EngineIssue(_, accept, draws) => LateIssueKeepsPlan(t.s, h);
    case EngineClose(_) => CloseNowKeepsPlan(t.s, h);
  }

  lemma LateIssueKeepsPlan(s: Session, h: Handler)
    requires h.EngineIssue? && s.completed
    ensures PlanKept(s, h, IssueNextFromEngine(s, h.accept, h.draws).0, IssueNextFromEngine(s, h.accept, h.draws).1)
  {
  }

  lemma KeptCounts(t: Track, t': Track, h: Handler, fx: Fx)
    requires Counts(t) && PlanKept(t.s, h, t'.s, fx)
    requires t'.budget == t.budget || !t.s.budgetSet
    requires t'.short == t.short && t'.cut == (t.cut || h.EngineClose?)
    requires h.StatReply? && !t.s.completed ==> !t.s.budgetSet
    ensures Counts(t')
  {
    hide OpBytes, FullOpBytes, Times, PlannedBytes;
  }

  lemma KeptLayout(t: Track, t': Track, h: Handler, fx: Fx)
    requires Layout(t) && PlanKept(t.s, h, t'.s, fx) && t'.issued == t.issued && t'.short == t.short
    requires h.ReadReply? ==> !t.s.result.ok
    requires !h.ReadReply? ==> t'.owed.read == t.owed.read
    requires h.StatReply? && !t.s.completed ==> !t.s.budgetSet
    ensures Layout(t')
  {
    hide OpBytes, FullOpBytes, TotalLen, Abut, Sized, InBuffer;
  }

  /** What the shape says before such a handler. */
  lemma OtherBefore(t: Track, h: Handler, places: nat, paid: nat)
    requires Shape(t, places, paid) && Possible(t, h)
    ensures h.StatReply? && !t.s.completed ==> !t.s.budgetSet
    ensures h.ReadReply? ==> !t.s.result.ok
  {
    hide OpBytes, FullOpBytes, Fits;
  }

  /** What such a handler does to the rest of the track. */
  lemma OtherAdvance(t: Track, h: Handler)
    requires Possible(t, h) && IssuesNothing(t, h)
    ensures var (t', fx) := Advance(t, h);
            && PlanKept(t.s, h, t'.s, fx) && t'.issued == t.issued && t'.short == t.short
            && t'.cut == (t.cut || h.EngineClose?) && (!h.StatReply? ==> t'.budget == t.budget)
            && (t.s.completed ==> t'.budget == t.budget)
            && (!h.ReadReply? ==> t'.owed.read == t.owed.read)
  {
    hide Handle;
    HandleKeepsPlan(t, h);
    assert t.issued + [] == t.issued;
  }

  lemma OtherTiles(t: Track, h: Handler, places: nat, paid: nat)
    requires Shape(t, places, paid) && Possible(t, h) && Counts(t) && Layout(t) && IssuesNothing(t, h)
    ensures Counts(Advance(t, h).0) && Layout(Advance(t, h).0)
  {
    hide Shape, Handle, Counts, Layout, Advance, PlanKept, Possible, IssuesNothing;
    OtherBefore(t, h, places, paid);
    OtherAdvance(t, h);
    var (t', fx) := Advance(t, h);
    KeptCounts(t, t', h, fx);
    KeptLayout(t, t', h, fx);
  }

  /** Whatever happens next, the issued reads still tile the planned range. */
  lemma AdvanceTiles(t: Track, h: Handler, places: nat, paid: nat)
    requires Shape(t, places, paid) && Possible(t, h) && Lawful(h, places, paid) && Counts(t) && Layout(t)
    ensures Counts(Advance(t, h).0) && Layout(Advance(t, h).0)
  {
    hide Shape, Counts, Layout, Lawful;
    if h.StatReply? && h.ok && !t.s.completed && Plannable(t.s.opts, h.size) {
      StatTiles(t, h, places, paid);
    } else if h.ReadReply? && h.ok && !t.s.completed {
      ReadTiles(t, h, places, paid);
    } else if h.EngineIssue? && !t.s.completed {
      EngineTiles(t, h, places, paid);
    } else {
      OtherTiles(t, h, places, paid);
    }
  }

  // ---------------------------------------------------------------- one read in the buffer

  lemma IssuePacked(t: Track, accept: bool, draws: seq<nat>)
    requires Idle(t.s, t.owed) && t.s.budgetSet && Counts(t)
    ensures Packed(Released(IssueNext(t.s, accept, draws)).1.chunks, 0)
  {
    hide IssueNext, Released, OpBytes, FullOpBytes, Times, PlannedBytes, ReadList;
    IssueChanges(t.s, accept, draws);
    if Released(IssueNext(t.s, accept, draws)).1.accepted == Some(ReadOp) {
      PlannedFits(t.s.opts, t.s.fileSize);
      ReadLayout(t.s, draws);
    }
  }

  lemma StatPacked(t: Track, h: Handler, places: nat, paid: nat)
    requires h.StatReply? && h.ok && !t.s.completed && Plannable(t.s.opts, h.size)
    requires Shape(t, places, paid) && Possible(t, h) && Counts(t) && Layout(t)
    ensures Packed(Advance(t, h).1.chunks, 0)
  {
    hide OnStat, IssueNext, Released, OpBytes, FullOpBytes, Times, PlannedBytes, Packed;
    StatIdle(t, h, places, paid);
    AfterStatTiles(t, h.size);
    IssuePacked(AfterStat(t, h.size), h.accept, h.draws);
    StatIssues(t.s, h.size, h.accept, h.draws);
  }

  lemma ReadPacked(t: Track, h: Handler, places: nat, paid: nat)
    requires h.ReadReply? && h.ok && !t.s.completed && Shape(t, places, paid) && Possible(t, h)
    ensures Advance(t, h).1.chunks == []
  {
    hide Shape, OnRead, IssueNext, Released, OpBytes, FullOpBytes;
    ReadIdle(t, h, places, paid);
    if Counted(t, h.got).remaining > 0 {
      ReadParks(t, h);
    } else {
      ReadIssues(t, h);
      IssueChanges(Counted(t, h.got), h.accept, h.draws);
    }
  }

  lemma EnginePacked(t: Track, h: Handler, places: nat, paid: nat)
    requires h.EngineIssue? && !t.s.completed && Shape(t, places, paid) && Lawful(h, places, paid) && Counts(t)
    ensures Packed(Advance(t, h).1.chunks, 0)
  {
    hide IssueNext, Released, OpBytes, FullOpBytes, Times, PlannedBytes, Packed, Counts;
    IssuePacked(t, h.accept, h.draws);
  }

  /** The pieces of any read a handler submits lie one after the other in the buffer. */
  lemma AdvancePacked(t: Track, h: Handler, places: nat, paid: nat)
    requires Shape(t, places, paid) && Possible(t, h) && Lawful(h, places, paid) && Counts(t) && Layout(t)
    ensures Packed(Advance(t, h).1.chunks, 0)
  {
    hide Shape, Counts, Layout, Lawful, Handle;
    if h.StatReply? && h.ok && !t.s.completed && Plannable(t.s.opts, h.size) {
      StatPacked(t, h, places, paid);
    } else if h.ReadReply? && h.ok && !t.s.completed {
      ReadPacked(t, h, places, paid);
    } else if h.EngineIssue? && !t.s.completed {
      EnginePacked(t, h, places, paid);
    } else {
      HandleKeepsPlan(t, h);
    }
  }

  // ---------------------------------------------------------------- the plan is met

  function CeilDiv(x: nat, y: nat): nat
    requires y > 0
  {
    (x + y - 1) / y
  }

  lemma CeilDivIs(x: nat, y: nat, n: nat)
    requires y > 0 && x <= n * y && (n > 0 ==> (n - 1) * y < x)
    ensures n == CeilDiv(x, y)
  {
    hide CeilDiv;
    CeilDivBounds(x, y);
    assert (n + 1) * y == n * y + y;
    if n < CeilDiv(x, y) {
      TimesMonotone(n + 1, CeilDiv(x, y), y);
    } else if n > CeilDiv(x, y) {
      TimesMonotone(CeilDiv(x, y), n - 1, y);
    }
  }

  lemma CeilDivBounds(x: nat, y: nat)
    requires y > 0
    ensures x <= CeilDiv(x, y) * y < x + y
  {
    var z := x + y - 1;
    assert z == (z / y) * y + z % y;
  }

  lemma CeilDivAtLeast(x: nat, y: nat, n: nat)
    requires y > 0 && (n > 0 ==> (n - 1) * y < x)
    ensures n <= CeilDiv(x, y)
  {
    hide CeilDiv;
    CeilDivBounds(x, y);
    if n > CeilDiv(x, y) {
      TimesMonotone(CeilDiv(x, y), n - 1, y);
    }
  }

  lemma TimesMonotone(a: nat, b: nat, y: nat)
    requires a <= b
    ensures a * y <= b * y
  {
  }

  /** An ok session with no short read and no CloseNow asks for, and reports,
      exactly the planned bytes, in exactly ceil(plan / operation size) reads;
      in every run no session counts more reads than that, nor more bytes than
      planned. */
  lemma OkReadsThePlan(t: Track, places: nat, paid: nat)
    requires Shape(t, places, paid) && Counts(t) && Layout(t) && t.s.budgetSet
    ensures t.s.bytesRead <= PlannedBytes(t.s.opts, t.s.fileSize)
    ensures OpBytes(t.s.opts) > 0 && t.s.ops <= CeilDiv(PlannedBytes(t.s.opts, t.s.fileSize), OpBytes(t.s.opts))
    ensures t.s.result.ok && !t.short && !t.cut ==>
              && TotalLen(t.issued) == PlannedBytes(t.s.opts, t.s.fileSize)
              && t.s.result.bytesRead == PlannedBytes(t.s.opts, t.s.fileSize)
              && t.s.result.ops == CeilDiv(PlannedBytes(t.s.opts, t.s.fileSize), OpBytes(t.s.opts))
  {
    hide Shape, Layout, FullOpBytes, OpBytes, PlannedBytes, CeilDiv, Fits, TotalLen, Answered, Plannable, InFlight;
    OkEnds(t, places, paid);
    FitsOpBytes(t.s.opts);
    CeilDivAtLeast(t.budget, OpBytes(t.s.opts), t.s.ops);
    if t.s.result.ok && !t.short && !t.cut {
      OkAnswered(t);
      CeilDivIs(t.budget, OpBytes(t.s.opts), t.s.ops);
    }
  }

  /** How a session that reports ok has ended. */
  lemma OkEnds(t: Track, places: nat, paid: nat)
    requires Shape(t, places, paid)
    ensures Fits(t.s.opts)
    ensures t.s.result.ok ==>
              && t.s.completed && !t.s.timedOut && t.s.remaining == 0 && InFlight(t) == 0
              && t.s.result.bytesRead == t.s.bytesRead && t.s.result.ops == t.s.ops
  {
    hide Fits, OpBytes;
  }

  lemma OkAnswered(t: Track)
    requires Layout(t) && t.s.result.ok && !t.short
    ensures TotalLen(t.issued) == t.s.bytesRead + InFlight(t)
  {
    hide TotalLen, InFlight;
  }
}
