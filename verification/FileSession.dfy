/** One file session: the object whose fields the handlers update, each method
    one critical section under the session lock or a part of one. Every method
    is proved against the function of SessionSpec that gives the new state.
    `accept` stands for the answer of XrdCl to the one submission a handler makes. */
module FileSessions {
  import opened Prelude
  import opened SessionSpec
  import opened SessionLedger
  import SessionEnds
  import opened ReadLists

  /** What a handler asks of its surroundings, but for the list of a read. */
  datatype Asked = Asked(refunded: nat, accepted: Option<Op>, done: Option<Report>, parked: bool, table: Table)

  const NOTHING := Asked(0, None, None, false, Keep)

  function Of(fx: Fx): Asked {
    Asked(fx.refunded, fx.accepted, fx.done, fx.parked, fx.table)
  }

  /** The requests of two parts of one handler, in order. */
  function Then(a: Asked, b: Asked): Asked {
    Asked(a.refunded + b.refunded,
          if b.accepted.Some? then b.accepted else a.accepted,
          if b.done.Some? then b.done else a.done,
          a.parked || b.parked,
          if b.table != Keep then b.table else a.table)
  }

  lemma NothingThen(b: Asked)
    ensures Then(NOTHING, b) == b
  {
  }

  /** The piece one turn of either read loop appends. */
  function Piece(o: Options, fileSize: nat, draws: seq<nat>, i: nat, left: nat, off: nat, buf: nat): Chunk {
    var len := Min(o.chunkSize, left);
    Chunk(if o.randomOffset then SampleOffset(DrawAt(draws, i), fileSize, len) else off, len, buf)
  }

  lemma VectorNext(o: Options, fileSize: nat, draws: seq<nat>, i: nat, left: nat, off: nat, buf: nat, done: seq<Chunk>)
    requires i < o.vectorChunks && left > 0
    ensures var piece := Piece(o, fileSize, draws, i, left, off, buf);
            && done + VectorChunks(o, fileSize, draws, i, left, off, buf)
            == done + [piece]
               + VectorChunks(o, fileSize, draws, i + 1, left - piece.len, off + piece.len, buf + piece.len)
            && TotalLen(done + [piece]) == TotalLen(done) + piece.len
  {
    var piece := Piece(o, fileSize, draws, i, left, off, buf);
    var rest := VectorChunks(o, fileSize, draws, i + 1, left - piece.len, off + piece.len, buf + piece.len);
    assert done + ([piece] + rest) == done + [piece] + rest;
    TotalAppend(done, [piece]);
    assert [piece][1..] == [];
  }

  // ---------------------------------------------------------------- the parts of the handlers

  /** Close was submitted and not accepted. */
  function CloseRefused(s: Session): (Session, Asked) {
    if s.pending > 1 then (s.(pending := s.pending - 1, closeRequested := false), NOTHING)
    else
      var r := Report(false, s.timedOut, s.bytesRead, s.ops);
      (s.(pending := s.pending - 1, completed := true, result := r), NOTHING.(done := Some(r)))
  }

  /** SubmitClose step by step. */
  lemma SubmitCloseIs(s: Session, accept: bool)
    requires !s.completed && !s.closeRequested
    ensures var asking := s.(closeRequested := true, pending := s.pending + 1);
            && SubmitClose(s, accept).0 == (if accept then asking else CloseRefused(asking).0)
            && Of(SubmitClose(s, accept).1) == (if accept then NOTHING.(accepted := Some(CloseOp), table := ArmOf(s))
                                                else CloseRefused(asking).1.(table := ArmOf(s)))
  {
    if accept {
    } else if s.pending > 0 {
      assert s.(closeRequested := true, pending := s.pending + 1).(pending := s.pending, closeRequested := false) == s;
    } else {
    }
  }

  /** The requests of SubmitClose, in the order they are made. */
  lemma ClosingArms(a: Asked, s: Session, accept: bool)
    requires !s.completed && !s.closeRequested
    ensures var asking := s.(closeRequested := true, pending := s.pending + 1);
            var armed := Then(a, NOTHING.(table := ArmOf(asking)));
            (Then(a, Of(SubmitClose(s, accept).1))
             == if accept then armed.(accepted := Some(CloseOp)) else Then(armed, CloseRefused(asking).1))
  {
    SubmitCloseIs(s, accept);
    hide SubmitClose;
  }

  /** Open or Stat is submitted; a refusal ends the session. */
  function AskOp(s: Session, op: Op, accept: bool): (Session, Fx) {
    if accept then (s.(pending := s.pending + 1), QUIET.(accepted := Some(op), table := ArmOf(s)))
    else Finish(DropPrepaid(s), NO_REPORT, QUIET.(refunded := Prepaid(s), table := ArmOf(s)))
  }

  function OpRefused(s: Session): Session {
    s.(pending := s.pending - 1, completed := true, prepaid := if s.issuedRead then s.prepaid else 0)
  }

  lemma AskOpIs(a: Asked, s: Session, op: Op, accept: bool)
    requires !s.completed && s.result == NO_REPORT
    ensures var asking := s.(pending := s.pending + 1);
            var armed := Then(a, NOTHING.(table := ArmOf(s)));
            && AskOp(s, op, accept).0 == (if accept then asking else OpRefused(asking))
            && Then(a, Of(AskOp(s, op, accept).1))
            == (if accept then armed.(accepted := Some(op))
                else Then(armed, NOTHING.(refunded := Prepaid(asking), done := Some(NO_REPORT))))
  {
    if accept {
    }
  }

  /** The handlers between the delivery of a callback and the release. */
  function Taken(s: Session): Session {
    s.(pending := s.pending - 1)
  }

  function Holding(s: Session): Session {
    s.(held := true)
  }

  function OpenBody(s: Session, ok: bool, accept: bool): (Session, Fx) {
    if s.completed then (s, QUIET)
    else if !ok then Fail(s)
    else if s.timedOut then SubmitClose(s, accept)
    else AskOp(s, StatOp, accept)
  }

  function CloseBody(s: Session, ok: bool): (Session, Fx) {
    if s.completed then (s, QUIET)
    else if s.timedOut then Finish(s, Report(false, true, s.bytesRead, s.ops), QUIET)
    else if !ok then Fail(s)
    else Finish(s, Report(true, false, s.bytesRead, s.ops), QUIET)
  }

  function StatBody(s: Session, ok: bool, size: nat, accept: bool, draws: seq<nat>): (Session, Fx) {
    if s.completed then (s, QUIET)
    else if !ok then Fail(s)
    else if Plannable(s.opts, size) then IssueNext(Plan(s, size), accept, draws)
    else Finish(DropPrepaid(s.(fileSize := size)), NO_REPORT, QUIET.(refunded := Prepaid(s)))
  }

  /** The plan by its two branches. */
  lemma PlanIs(s: Session, size: nat)
    ensures var budget := if s.opts.maxBytes > 0 then Min(size, s.opts.maxBytes) else size;
            && (s.opts.randomOffset ==>
                  Plan(s, size) == s.(fileSize := size).(budgetSet := true, remaining := budget, nextOffset := 0))
            && (!s.opts.randomOffset && s.opts.offset < size ==>
                  Plan(s, size) == s.(fileSize := size).(
                    budgetSet := true, remaining := Min(size - s.opts.offset, budget), nextOffset := s.opts.offset))
  {
  }

  lemma TakenKeeps(s: Session)
    ensures Taken(s).completed == s.completed && Taken(s).paced == s.paced && Taken(s).result == s.result
  {
  }

  lemma UsedKeeps(s: Session, got: nat)
    ensures var u := Used(Tallied(s, got), got);
            u.completed == s.completed && u.paced == s.paced && u.result == s.result
  {
  }

  lemma OnOpenIs(s: Session, ok: bool, accept: bool)
    ensures var b := OpenBody(Taken(s), ok, accept);
            OnOpen(s, ok, accept).0 == ReleaseIfIdle(b.0) && Of(OnOpen(s, ok, accept).1) == Of(b.1)
  {
    hide SubmitClose, Fail;
  }

  /** The answer to Close decides the report. */
  lemma CloseIsReported(s: Session, ok: bool)
    ensures var done := Of(OnClose(s, ok).1).done;
            !s.completed ==>
              done.Some? && (done.value.ok <==> ok && !s.timedOut) && (done.value.timedOut <==> s.timedOut)
  {
    hide OnClose;
    if !s.completed {
      SessionEnds.CloseReplyProceeds(s, CloseReply(ok));
    }
  }

  lemma OnCloseIs(s: Session, ok: bool)
    ensures var b := CloseBody(Taken(s), ok);
            OnClose(s, ok).0 == ReleaseIfIdle(b.0) && Of(OnClose(s, ok).1) == Of(b.1)
  {
    hide Fail;
  }

  lemma OnStatIs(s: Session, ok: bool, size: nat, accept: bool, draws: seq<nat>)
    ensures var b := StatBody(Taken(s), ok, size, accept, draws);
            && OnStat(s, ok, size, accept, draws).0 == ReleaseIfIdle(b.0)
            && OnStat(s, ok, size, accept, draws).1 == b.1
  {
    if !s.completed && ok && Plannable(s.opts, size) {
      StatIssues(s, size, accept, draws);
      assert Planned(s, size) == Plan(Taken(s), size);
      hide OnStat, Planned, Plan;
    }
    hide IssueNext, Fail, PlannedBytes;
  }

  lemma OnReadIs(s: Session, ok: bool, got: nat, accept: bool, draws: seq<nat>)
    ensures var taken := Taken(s);
            var (n, g) := OnRead(s, ok, got, accept, draws);
            if s.completed then n == ReleaseIfIdle(taken) && g == QUIET
            else if !ok then
              n == ReleaseIfIdle(FailRead(taken).0) && Of(g) == Of(FailRead(taken).1) && g.accepted == None
            else
              var read := Used(Tallied(taken, got), got);
              var left := Shortfall(Tallied(taken, got), got);
              if s.paced && read.remaining > 0 then
                n == read && Of(g) == NOTHING.(refunded := left, parked := true, table := Disarm)
              else
                && n == ReleaseIfIdle(IssueNext(read, accept, draws).0)
                && Of(g) == Then(NOTHING.(refunded := left), Of(IssueNext(read, accept, draws).1))
                && g.chunks == IssueNext(read, accept, draws).1.chunks
  {
    hide IssueNext, FailRead, ReleaseIfIdle;
    FailReadNoRead(Taken(s));
    if s.completed {
    } else if !ok {
    } else {
      assert Absorb(Taken(s), got) == Used(Tallied(Taken(s), got), got);
      if s.paced && Absorb(Taken(s), got).remaining > 0 {
      }
    }
  }

  lemma FailReadNoRead(s: Session)
    ensures FailRead(s).1.accepted == None
  {
  }

  // ---------------------------------------------------------------- issuing a read

  /** The file offset a single read starts at. */
  function NextStart(s: Session, draws: seq<nat>): nat {
    if s.opts.randomOffset && s.opts.vectorChunks == 0 then ReadList(s, draws)[0].off else s.nextOffset
  }

  function Chosen(s: Session, draws: seq<nat>): Session {
    s.(requested := TotalLen(ReadList(s, draws)), nextOffset := NextStart(s, draws))
  }

  /** What the prepayment exceeds the read by. */
  function Excess(s: Session): nat {
    if s.prepaid > s.requested then RefundOf(s, s.prepaid - s.requested) else 0
  }

  /** The requests of a submitted read, in the order they are made. */
  function ReadAsked(a: Asked, s: Session, chosen: Session, accept: bool): Asked {
    var armed := Then(a, NOTHING.(table := ArmOf(s)));
    var sent := if accept then armed.(accepted := Some(ReadOp)) else armed;
    sent.(refunded := sent.refunded + Excess(chosen))
  }

  lemma IssueNextReads(a: Asked, s: Session, accept: bool, draws: seq<nat>)
    requires !s.completed && !s.timedOut && s.remaining > 0
    ensures var chosen := Chosen(s.(pending := s.pending + 1), draws);
            var settled := chosen.(prepaid := 0, issuedRead := true);
            var (n, g) := IssueNext(s, accept, draws);
            && n == (if accept then settled else FailRead(Taken(settled)).0)
            && Then(a, Of(g)) == (if accept then ReadAsked(a, s, chosen, accept)
                                  else Then(ReadAsked(a, s, chosen, accept), Of(FailRead(Taken(settled)).1)))
            && (accept ==> g.chunks == ReadList(s.(pending := s.pending + 1), draws))
            && (!accept ==> g.accepted == None)
  {
    var moved := s.(pending := s.pending + 1);
    assert ReadList(moved, draws) == ReadList(s, draws) by {
      hide VectorChunks, SampleOffset;
    }
    hide ReadList, TotalLen;
    if accept {
    }
  }

  /** With nothing left to read the session asks for Close. */
  function EndReads(s: Session, accept: bool): (Session, Asked) {
    var (c, f) := SubmitClose(DropPrepaid(s), accept);
    (c, Of(f).(refunded := Prepaid(s) + f.refunded))
  }

  function Stopped(s: Session): Session {
    if s.timedOut then s.(remaining := 0) else s
  }

  lemma IssueNextIs(s: Session, accept: bool, draws: seq<nat>)
    requires !s.completed
    ensures Stopped(s).remaining == 0 ==>
              && IssueNext(s, accept, draws).0 == EndReads(Stopped(s), accept).0
              && Of(IssueNext(s, accept, draws).1) == EndReads(Stopped(s), accept).1
              && IssueNext(s, accept, draws).1.accepted != Some(ReadOp)
  {
    if !s.closeRequested {
      SubmitCloseIs(DropPrepaid(Stopped(s)), accept);
    }
    hide SubmitClose, CloseRefused;
  }

  lemma StartIs(s: Session, accept: bool)
    ensures accept ==> Start(s, accept).0 == AskOp(Holding(s), OpenOp, accept).0
    ensures !accept ==> Start(s, accept).0 == ReleaseIfIdle(AskOp(Holding(s), OpenOp, accept).0)
    ensures Of(Start(s, accept).1) == Of(AskOp(Holding(s), OpenOp, accept).1)
  {
  }

  /** A file that ends before the start offset is a failure without a read. */
  lemma RefusalIs(s: Session, size: nat, accept: bool, draws: seq<nat>)
    requires !s.completed && !Plannable(s.opts, size)
    ensures var sized := s.(fileSize := size);
            && StatBody(s, true, size, accept, draws).0 == Finish(DropPrepaid(sized), NO_REPORT, QUIET).0
            && Of(StatBody(s, true, size, accept, draws).1)
               == NOTHING.(refunded := Prepaid(sized), done := Some(NO_REPORT))
            && StatBody(s, true, size, accept, draws).1.accepted == None
  {
  }

  lemma IssueFromEngineIs(s: Session, accept: bool, draws: seq<nat>)
    ensures IssueNextFromEngine(s, accept, draws).0 == ReleaseIfIdle(IssueNext(s, accept, draws).0)
    ensures IssueNextFromEngine(s, accept, draws).1 == IssueNext(s, accept, draws).1
    ensures s.completed ==> IssueNext(s, accept, draws).0 == s && Of(IssueNext(s, accept, draws).1) == NOTHING
                            && IssueNext(s, accept, draws).1.accepted == None
  {
    hide ReadList, TotalLen;
  }

  lemma FailNoRead(s: Session)
    ensures Fail(s).1.accepted == None
  {
  }

  // ---------------------------------------------------------------- no report before the end

  /** The report is written only on the way to completion. */
  predicate Unreported(s: Session) {
    !s.completed ==> s.result == NO_REPORT
  }

  lemma SubmitCloseReports(s: Session, accept: bool)
    requires Unreported(s)
    ensures Unreported(SubmitClose(s, accept).0)
  {
    if s.closeRequested {
    } else if accept {
    } else if s.pending > 0 {
    }
  }

  lemma IssueReports(s: Session, accept: bool, draws: seq<nat>)
    requires Unreported(s)
    ensures Unreported(IssueNext(s, accept, draws).0)
  {
    hide SubmitClose, ReadList, TotalLen;
    if !s.completed && (s.timedOut || s.remaining == 0) {
      SubmitCloseReports(DropPrepaid(Stopped(s)), accept);
      SubmitCloseReports(DropPrepaid(s), accept);
    } else if accept {
    }
  }

  lemma OpenReports(s: Session, ok: bool, accept: bool)
    requires Unreported(s)
    ensures Unreported(OnOpen(s, ok, accept).0)
  {
    hide SubmitClose;
    SubmitCloseReports(s.(pending := s.pending - 1), accept);
    if s.completed {
    } else if !ok {
    } else if s.timedOut {
    } else if accept {
    }
  }

  lemma StatReports(s: Session, ok: bool, size: nat, accept: bool, draws: seq<nat>)
    requires Unreported(s)
    ensures Unreported(OnStat(s, ok, size, accept, draws).0)
  {
    hide IssueNext, OnStat, ReleaseIfIdle, PlannedBytes;
    OnStatIs(s, ok, size, accept, draws);
    var t := Taken(s);
    if !s.completed && ok && Plannable(s.opts, size) {
      IssueReports(Plan(t, size), accept, draws);
    } else if s.completed {
    } else if !ok {
    }
    ReleaseReports(StatBody(t, ok, size, accept, draws).0);
  }

  lemma ReleaseReports(s: Session)
    ensures Unreported(s) <==> Unreported(ReleaseIfIdle(s))
  {
  }

  lemma ReadReports(s: Session, ok: bool, got: nat, accept: bool, draws: seq<nat>)
    requires Unreported(s)
    ensures Unreported(OnRead(s, ok, got, accept, draws).0)
  {
    hide IssueNext, OnRead, ReleaseIfIdle;
    OnReadIs(s, ok, got, accept, draws);
    var read := Used(Tallied(Taken(s), got), got);
    if s.completed {
      ReleaseReports(Taken(s));
    } else if !ok {
      ReleaseReports(FailRead(Taken(s)).0);
    } else {
      IssueReports(read, accept, draws);
      ReleaseReports(IssueNext(read, accept, draws).0);
    }
  }

  lemma CloseReports(s: Session, ok: bool)
    requires Unreported(s)
    ensures Unreported(OnClose(s, ok).0)
  {
    if s.completed {
    } else if s.timedOut {
    } else if !ok {
    }
  }

  lemma AskReports(s: Session, accept: bool, draws: seq<nat>)
    requires Unreported(s)
    ensures Unreported(RequestWallTimeout(s, accept).0) && Unreported(CloseNow(s, accept).0)
    ensures Unreported(IssueNextFromEngine(s, accept, draws).0)
  {
    hide SubmitClose, IssueNext;
    SubmitCloseReports(s.(timedOut := true), accept);
    SubmitCloseReports(s.(remaining := 0), accept);
    IssueReports(s, accept, draws);
  }

  lemma StartReports(s: Session, accept: bool)
    requires Unreported(s)
    ensures Unreported(Start(s, accept).0)
  {
    if accept {
    }
  }

  /** The source's names for the entry points: Begin is Start, OpenReply to
      CloseReply are OnOpen to OnClose, RequestTimeout is RequestWallTimeout,
      CloseSoon is CloseNow, IssueFromEngine is IssueNextFromEngine; RequestClose
      is SubmitClose and IssueRead is IssueNext. */
  class FileSession {
    const opts: Options
    const paced: bool
    var prepaid: nat
    var fileSize: nat
    var remaining: nat
    var nextOffset: nat
    var requested: nat
    var bytesRead: nat
    var ops: nat
    var pending: int
    var timedOut: bool
    var closeRequested: bool
    var budgetSet: bool
    var issuedRead: bool
    var completed: bool
    var held: bool
    var result: Report
    /** What the running handler has asked of its surroundings so far. */
    var asked: Asked
    /** The pieces of the last read it submitted. */
    var sent: seq<Chunk>

    ghost function State(): (s: Session)
      reads this`prepaid, this`fileSize, this`remaining, this`nextOffset, this`requested, this`bytesRead, this`ops
      reads this`pending, this`timedOut, this`closeRequested, this`budgetSet, this`issuedRead, this`completed
      reads this`held, this`result
      ensures s.opts == opts && s.paced == paced && s.completed == completed && s.result == result
      ensures s.timedOut == timedOut && s.remaining == remaining
    {
      Session(opts, paced, prepaid, fileSize, remaining, nextOffset, requested, bytesRead, ops, pending,
              timedOut, closeRequested, budgetSet, issuedRead, completed, held, result)
    }

    /** What every entry point needs, and leaves behind for the next callback. */
    ghost predicate Valid()
      reads this`completed, this`result
    {
      !completed ==> result == NO_REPORT
    }

    constructor (opts: Options, paced: bool, prepaid: nat)
      ensures Valid() && State() == Fresh(opts, paced, prepaid) && asked == NOTHING && sent == []
    {
      this.opts := opts;
      this.paced := paced;
      this.prepaid := prepaid;
      fileSize, remaining, nextOffset, requested, bytesRead, ops := 0, 0, 0, 0, 0, 0;
      pending := 0;
      timedOut, closeRequested, budgetSet, issuedRead, completed, held := false, false, false, false, false, false;
      result := NO_REPORT;
      asked := NOTHING;
      sent := [];
    }

    // ---------------------------------------------------------------- shared steps

    lemma FieldsOfState()
      ensures State().completed == completed && State().closeRequested == closeRequested && State().paced == paced
      ensures State().remaining == remaining && State().result == result && State().timedOut == timedOut
    {
    }

    lemma StateOpts()
      ensures State().opts == opts
    {
    }

    method RefundBytes(n: nat)
      modifies this`asked
      ensures asked == old(asked).(refunded := old(asked).refunded + if paced then n else 0)
    {
      if n == 0 || !paced {
        return;
      }
      asked := asked.(refunded := asked.refunded + n);
    }

    method RefundPrepaid()
      modifies this`asked, this`prepaid
      ensures State() == DropPrepaid(old(State()))
      ensures asked == old(asked).(refunded := old(asked).refunded + Prepaid(old(State())))
    {
      if issuedRead {
        return;
      }
      RefundBytes(prepaid);
      prepaid := 0;
    }

    method ArmOpDeadline()
      modifies this`asked
      ensures asked == old(asked).(table := if opts.deadline then Arm else old(asked).table)
    {
      if opts.deadline {
        asked := asked.(table := Arm);
      }
    }

    method CapturePartialCounters()
      modifies this`result
      ensures result == old(result).(bytesRead := bytesRead, ops := ops)
    {
      result := result.(bytesRead := bytesRead, ops := ops);
    }

    method Complete()
      modifies this`completed, this`asked
      ensures completed && asked == if old(completed) then old(asked) else old(asked).(done := Some(result))
    {
      if completed {
        return;
      }
      completed := true;
      asked := asked.(done := Some(result));
    }

    /** Drops the self-reference when the session is over and nothing is owed. */
    method ReleaseSelf()
      modifies this`held
      ensures State() == ReleaseIfIdle(old(State()))
    {
      if pending == 0 && completed {
        held := false;
      }
    }

    /** A callback has been delivered. */
    method TakeReply()
      modifies this`pending, this`asked
      ensures State() == Taken(old(State())) && asked == NOTHING
    {
      asked := NOTHING;
      pending := pending - 1;
    }

    method CloseFailed()
      requires !completed && closeRequested && result == NO_REPORT
      modifies this`pending, this`closeRequested, this`asked, this`result, this`completed
      ensures State() == CloseRefused(old(State())).0
      ensures asked == Then(old(asked), CloseRefused(old(State())).1)
    {
      pending := pending - 1;
      if pending > 0 {
        closeRequested := false;
        return;
      }
      CapturePartialCounters();
      if timedOut {
        result := result.(timedOut := true);
      }
      Complete();
    }

    /** Counts the callback of a submission and arms the deadline. */
    method StartOp()
      modifies this`pending, this`asked
      ensures State() == old(State()).(pending := old(State()).pending + 1)
      ensures asked == Then(old(asked), NOTHING.(table := ArmOf(old(State()))))
    {
      pending := pending + 1;
      ArmOpDeadline();
    }

    /** The same for Close, which is asked for once. */
    method StartClose()
      requires !closeRequested
      modifies this`pending, this`closeRequested, this`asked
      ensures State() == old(State()).(closeRequested := true, pending := old(State()).pending + 1)
      ensures asked == Then(old(asked), NOTHING.(table := ArmOf(State())))
    {
      closeRequested := true;
      StartOp();
    }

    method RequestClose(accept: bool)
      requires !completed && result == NO_REPORT
      modifies this`pending, this`closeRequested, this`asked, this`result, this`completed
      ensures State() == SubmitClose(old(State()), accept).0
      ensures asked == Then(old(asked), Of(SubmitClose(old(State()), accept).1))
    {
      ghost var s, a := State(), asked;
      if closeRequested {
        assert SubmitClose(s, accept) == (s, QUIET) && Then(a, Of(QUIET)) == a;
      } else {
        SubmitCloseIs(s, accept);
        ClosingArms(a, s, accept);
      }
      hide SubmitClose, CloseRefused, ArmOf, State, Then, Of;
      if closeRequested {
        return;
      }
      StartClose();
      if accept {
        asked := asked.(accepted := Some(CloseOp));
      } else {
        CloseFailed();
      }
    }

    /** Open, Stat or Close reported an error: the session is over. */
    method FailStage()
      requires !completed && result == NO_REPORT
      modifies this`prepaid, this`asked, this`result, this`completed
      ensures State() == Fail(old(State())).0
      ensures asked == Then(old(asked), Of(Fail(old(State())).1))
    {
      CapturePartialCounters();
      if !issuedRead {
        RefundPrepaid();
      }
      Complete();
    }

    /** A read reported an error: the session is over. */
    method FailReadStage()
      requires !completed && result == NO_REPORT
      modifies this`requested, this`asked, this`result, this`completed
      ensures State() == FailRead(old(State())).0
      ensures asked == Then(old(asked), Of(FailRead(old(State())).1))
    {
      CapturePartialCounters();
      RefundBytes(requested);
      requested := 0;
      Complete();
    }

    // ---------------------------------------------------------------- the next read

    /** The pieces of the next vector read with random offsets. */
    method RandomPieces(draws: seq<nat>) returns (chunks: seq<Chunk>, wanted: nat)
      requires opts.randomOffset
      ensures chunks == VectorChunks(opts, fileSize, draws, 0, remaining, nextOffset, 0)
      ensures wanted == TotalLen(chunks)
    {
      chunks, wanted := [], 0;
      var buf: nat, left: nat, i: nat := 0, remaining, 0;
      ghost var off: nat := nextOffset;
      while i < opts.vectorChunks && left > 0
        invariant i <= opts.vectorChunks
        invariant wanted == TotalLen(chunks)
        invariant chunks + VectorChunks(opts, fileSize, draws, i, left, off, buf)
               == VectorChunks(opts, fileSize, draws, 0, remaining, nextOffset, 0)
      {
        VectorNext(opts, fileSize, draws, i, left, off, buf, chunks);
        var len := Min(opts.chunkSize, left);
        chunks := chunks + [Chunk(SampleOffset(DrawAt(draws, i), fileSize, len), len, buf)];
        buf := buf + len;
        left := left - len;
        wanted := wanted + len;
        off := off + len;
        i := i + 1;
      }
      assert VectorChunks(opts, fileSize, draws, i, left, off, buf) == [];
    }

    /** The pieces of the next vector read in file order. */
    method SequentialPieces(ghost draws: seq<nat>) returns (chunks: seq<Chunk>, wanted: nat)
      requires !opts.randomOffset
      ensures chunks == VectorChunks(opts, fileSize, draws, 0, remaining, nextOffset, 0)
      ensures wanted == TotalLen(chunks)
    {
      chunks := [];
      var buf: nat, left: nat, i: nat := 0, remaining, 0;
      var off: nat := nextOffset;
      while i < opts.vectorChunks && left > 0
        invariant i <= opts.vectorChunks
        invariant off == nextOffset + TotalLen(chunks)
        invariant chunks + VectorChunks(opts, fileSize, draws, i, left, off, buf)
               == VectorChunks(opts, fileSize, draws, 0, remaining, nextOffset, 0)
      {
        VectorNext(opts, fileSize, draws, i, left, off, buf, chunks);
        var len := Min(opts.chunkSize, left);
        chunks := chunks + [Chunk(off, len, buf)];
        buf := buf + len;
        off := off + len;
        left := left - len;
        i := i + 1;
      }
      assert VectorChunks(opts, fileSize, draws, i, left, off, buf) == [];
      wanted := if nextOffset == off then 0 else off - nextOffset;
    }

    /** Decides what to read next. */
    method ChooseRead(draws: seq<nat>) returns (chunks: seq<Chunk>)
      modifies this`requested, this`nextOffset
      ensures chunks == ReadList(old(State()), draws) && State() == Chosen(old(State()), draws)
    {
      if opts.vectorChunks > 0 {
        if opts.randomOffset {
          chunks, requested := RandomPieces(draws);
        } else {
          chunks, requested := SequentialPieces(draws);
        }
      } else {
        requested := Min(opts.chunkSize, remaining);
        if opts.randomOffset {
          nextOffset := SampleOffset(DrawAt(draws, 0), fileSize, requested);
        }
        chunks := [Chunk(nextOffset, requested, 0)];
        assert TotalLen(chunks) == requested + TotalLen(chunks[1..]);
      }
    }

    /** The first read uses the prepayment; what it does not need goes back. */
    method SettlePrepaid()
      modifies this`asked, this`prepaid, this`issuedRead
      ensures State() == old(State()).(prepaid := 0, issuedRead := true)
      ensures asked == old(asked).(refunded := old(asked).refunded + Excess(old(State())))
    {
      if prepaid > requested {
        RefundBytes(prepaid - requested);
      }
      prepaid := 0;
      issuedRead := true;
    }

    /** The read was not accepted: the session fails. */
    method ReadFailed()
      requires !completed && result == NO_REPORT
      modifies this`pending, this`requested, this`asked, this`result, this`completed
      ensures State() == FailRead(Taken(old(State()))).0
      ensures asked == Then(old(asked), Of(FailRead(Taken(old(State()))).1))
    {
      hide FailRead, Then, Of;
      pending := pending - 1;
      FailReadStage();
    }

    /** Submits the next read of a session that has bytes left to read. */
    method SubmitRead(accept: bool, draws: seq<nat>)
      requires !completed && result == NO_REPORT && !timedOut && remaining > 0
      modifies this`pending, this`asked, this`sent, this`result, this`completed
      modifies this`requested, this`nextOffset, this`prepaid, this`issuedRead
      ensures State() == IssueNext(old(State()), accept, draws).0
      ensures asked == Then(old(asked), Of(IssueNext(old(State()), accept, draws).1))
      ensures accept ==> sent == IssueNext(old(State()), accept, draws).1.chunks
      ensures !accept ==> IssueNext(old(State()), accept, draws).1.accepted == None
    {
      hide IssueNext, ReadList, TotalLen, Chosen, FailRead, Taken, Then, Of, Excess, ArmOf;
      IssueNextReads(asked, State(), accept, draws);
      StartOp();
      var chunks := ChooseRead(draws);
      if accept {
        asked := asked.(accepted := Some(ReadOp));
        sent := chunks;
      }
      SettlePrepaid();
      if !accept {
        ReadFailed();
      }
    }

    /** Asks for Close when nothing remains to be read. */
    method FinishReading(accept: bool)
      requires !completed && result == NO_REPORT
      modifies this`pending, this`closeRequested, this`asked, this`result, this`completed, this`prepaid
      ensures State() == EndReads(old(State()), accept).0
      ensures asked == Then(old(asked), EndReads(old(State()), accept).1)
    {
      hide State, SubmitClose, DropPrepaid, Prepaid;
      RefundPrepaid();
      RequestClose(accept);
    }

    method StopIfTimedOut()
      modifies this`remaining
      ensures State() == Stopped(old(State())) && remaining == Stopped(old(State())).remaining
      ensures timedOut ==> remaining == 0
    {
      if timedOut {
        remaining := 0;
      }
    }

    /** Submits the next read, or asks for Close when nothing remains. */
    method IssueRead(accept: bool, draws: seq<nat>)
      requires !completed && result == NO_REPORT
      modifies this`pending, this`closeRequested, this`asked, this`sent, this`result, this`completed
      modifies this`remaining, this`requested, this`nextOffset, this`prepaid, this`issuedRead
      ensures State() == IssueNext(old(State()), accept, draws).0
      ensures asked == Then(old(asked), Of(IssueNext(old(State()), accept, draws).1))
      ensures IssueNext(old(State()), accept, draws).1.accepted == Some(ReadOp) ==>
                sent == IssueNext(old(State()), accept, draws).1.chunks
    {
      IssueNextIs(State(), accept, draws);
      assert !timedOut ==> Stopped(State()) == State();
      hide State, IssueNext, EndReads, Stopped, Then, Of;
      StopIfTimedOut();
      if remaining == 0 {
        FinishReading(accept);
      } else {
        SubmitRead(accept, draws);
      }
    }

    // ---------------------------------------------------------------- callbacks

    /** Open or Stat was not accepted: the session is over. */
    method OpFailed()
      requires !completed && result == NO_REPORT
      modifies this`pending, this`asked, this`completed, this`prepaid
      ensures State() == OpRefused(old(State()))
      ensures asked == Then(old(asked), NOTHING.(refunded := Prepaid(old(State())), done := Some(NO_REPORT)))
    {
      pending := pending - 1;
      RefundPrepaid();
      Complete();
    }

    /** Submits Open or Stat. */
    method SubmitOp(op: Op, accept: bool)
      requires !completed && result == NO_REPORT
      modifies this`pending, this`asked, this`completed, this`prepaid
      ensures State() == AskOp(old(State()), op, accept).0
      ensures asked == Then(old(asked), Of(AskOp(old(State()), op, accept).1))
    {
      hide AskOp, OpRefused, Prepaid, ArmOf, Of;
      AskOpIs(asked, State(), op, accept);
      StartOp();
      if accept {
        asked := asked.(accepted := Some(op));
      } else {
        OpFailed();
      }
    }

    /** What follows the reply to Open, but for the release. */
    method OpenStep(ok: bool, accept: bool)
      requires !completed ==> result == NO_REPORT
      modifies this`pending, this`closeRequested, this`asked, this`result, this`completed, this`prepaid
      ensures State() == OpenBody(old(State()), ok, accept).0
      ensures asked == Then(old(asked), Of(OpenBody(old(State()), ok, accept).1))
    {
      hide Fail, SubmitClose, AskOp;
      if completed {
        return;
      }
      if !ok {
        FailStage();
      } else if timedOut {
        RequestClose(accept);
      } else {
        SubmitOp(StatOp, accept);
      }
    }

    method OpenReply(ok: bool, accept: bool)
      requires Valid()
      modifies this`pending, this`closeRequested, this`asked, this`result, this`completed, this`prepaid, this`held
      ensures Valid()
      ensures State() == OnOpen(old(State()), ok, accept).0
      ensures asked == Of(OnOpen(old(State()), ok, accept).1)
    {
      hide OnOpen, OpenBody, ReleaseIfIdle, Then, Of, State, Taken;
      OpenReports(State(), ok, accept);
      OnOpenIs(State(), ok, accept);
      TakeReply();
      NothingThen(Of(OpenBody(State(), ok, accept).1));
      OpenStep(ok, accept);
      ReleaseSelf();
    }

    method SetPlan(left: nat, from: nat)
      modifies this`remaining, this`nextOffset, this`budgetSet
      ensures State() == old(State()).(remaining := left, nextOffset := from, budgetSet := true)
    {
      remaining := left;
      nextOffset := from;
      budgetSet := true;
    }

    method SetSize(size: nat)
      modifies this`fileSize
      ensures State() == old(State()).(fileSize := size)
    {
      fileSize := size;
    }

    /** Works out what to read of a file of `size` bytes. */
    method MakePlan(size: nat) returns (fits: bool)
      modifies this`fileSize, this`remaining, this`nextOffset, this`budgetSet
      ensures fits == Plannable(opts, size)
      ensures State() == if fits then Plan(old(State()), size) else old(State()).(fileSize := size)
    {
      hide State, Plan;
      PlanIs(State(), size);
      StateOpts();
      SetSize(size);
      var budget := size;
      if opts.maxBytes > 0 {
        budget := Min(budget, opts.maxBytes);
      }
      if opts.randomOffset {
        SetPlan(budget, 0);
        return true;
      }
      if opts.offset >= size {
        return false;
      }
      SetPlan(Min(size - opts.offset, budget), opts.offset);
      return true;
    }

    /** The start offset lies behind the end of the file. */
    method RefuseOffset()
      requires !completed && result == NO_REPORT
      modifies this`asked, this`completed, this`prepaid
      ensures State() == Finish(DropPrepaid(old(State())), NO_REPORT, QUIET).0
      ensures asked == Then(old(asked), NOTHING.(refunded := Prepaid(old(State())), done := Some(NO_REPORT)))
    {
      RefundPrepaid();
      Complete();
    }

    method StatStep(ok: bool, size: nat, accept: bool, draws: seq<nat>)
      requires !completed ==> result == NO_REPORT
      modifies this`pending, this`closeRequested, this`asked, this`sent, this`result, this`completed, this`remaining
      modifies this`requested, this`nextOffset, this`prepaid, this`issuedRead, this`fileSize, this`budgetSet
      ensures State() == StatBody(old(State()), ok, size, accept, draws).0
      ensures asked == Then(old(asked), Of(StatBody(old(State()), ok, size, accept, draws).1))
      ensures StatBody(old(State()), ok, size, accept, draws).1.accepted == Some(ReadOp) ==>
                sent == StatBody(old(State()), ok, size, accept, draws).1.chunks
    {
      hide Fail, IssueNext, Plan, Plannable, DropPrepaid;
      if completed {
        return;
      }
      if !ok {
        FailNoRead(State());
        FailStage();
        return;
      }
      if Plannable(opts, size) {
        assert StatBody(State(), ok, size, accept, draws) == IssueNext(Plan(State(), size), accept, draws);
      } else {
        RefusalIs(State(), size, accept, draws);
      }
      hide StatBody;
      var fits := MakePlan(size);
      if fits {
        IssueRead(accept, draws);
      } else {
        RefuseOffset();
      }
    }

    method StatReply(ok: bool, size: nat, accept: bool, draws: seq<nat>)
      requires Valid()
      modifies this`pending, this`closeRequested, this`asked, this`sent, this`result, this`completed, this`remaining
      modifies this`requested, this`nextOffset, this`prepaid, this`issuedRead, this`fileSize, this`budgetSet, this`held
      ensures Valid()
      ensures State() == OnStat(old(State()), ok, size, accept, draws).0
      ensures asked == Of(OnStat(old(State()), ok, size, accept, draws).1)
      ensures asked.accepted == Some(ReadOp) ==> sent == OnStat(old(State()), ok, size, accept, draws).1.chunks
    {
      hide OnStat, StatBody, ReleaseIfIdle, Then, State, Taken;
      StatReports(State(), ok, size, accept, draws);
      OnStatIs(State(), ok, size, accept, draws);
      TakeReply();
      NothingThen(Of(StatBody(State(), ok, size, accept, draws).1));
      StatStep(ok, size, accept, draws);
      ReleaseSelf();
    }

    /** Counts the bytes of a successful read. */
    method CountBytes(got: nat)
      modifies this`ops, this`bytesRead, this`nextOffset
      ensures State() == Tallied(old(State()), got)
    {
      ops := ops + 1;
      bytesRead := bytesRead + got;
      if !opts.randomOffset {
        nextOffset := nextOffset + got;
      }
    }

    /** A short read ends the file; what it did not use is refunded. */
    method UseUp(got: nat)
      modifies this`remaining, this`asked, this`requested
      ensures State() == Used(old(State()), got)
      ensures asked == old(asked).(refunded := old(asked).refunded + Shortfall(old(State()), got))
    {
      remaining := if got < requested then 0 else (remaining - got) % 0x1_0000_0000_0000_0000;
      if got < requested {
        RefundBytes(requested - got);
      }
      requested := 0;
    }

    /** A parked session is left to the callback thread, which calls on_ready. */
    method ReadReply(ok: bool, got: nat, accept: bool, draws: seq<nat>)
      requires Valid()
      modifies this`pending, this`closeRequested, this`asked, this`sent, this`result, this`completed, this`remaining
      modifies this`requested, this`nextOffset, this`prepaid, this`issuedRead, this`ops, this`bytesRead, this`held
      ensures Valid()
      ensures State() == OnRead(old(State()), ok, got, accept, draws).0
      ensures asked == Of(OnRead(old(State()), ok, got, accept, draws).1)
      ensures asked.accepted == Some(ReadOp) ==> sent == OnRead(old(State()), ok, got, accept, draws).1.chunks
    {
      hide State, OnRead, ReleaseIfIdle, Tallied, Used, IssueNext, FailRead, Shortfall, Taken;
      ghost var s := State();
      FieldsOfState();
      ReadReports(s, ok, got, accept, draws);
      OnReadIs(s, ok, got, accept, draws);
      TakenKeeps(s);
      TakeReply();
      FieldsOfState();
      if completed {
        ReleaseSelf();
        FieldsOfState();
        return;
      }
      if !ok {
        FailReadStage();
        ReleaseSelf();
        FieldsOfState();
        return;
      }
      UsedKeeps(Taken(s), got);
      CountBytes(got);
      UseUp(got);
      FieldsOfState();
      if paced && remaining > 0 {
        asked := asked.(parked := true, table := Disarm);
        return;
      }
      IssueRead(accept, draws);
      ReleaseSelf();
      FieldsOfState();
    }

    /** The session ends by its Close, in time or not. */
    method FinishClosed(late: bool)
      requires !completed && result == NO_REPORT
      modifies this`asked, this`result, this`completed
      ensures State() == Finish(old(State()), Report(!late, late, bytesRead, ops), QUIET).0
      ensures asked == Then(old(asked), NOTHING.(done := Some(Report(!late, late, bytesRead, ops))))
    {
      CapturePartialCounters();
      if late {
        result := result.(timedOut := true);
      } else {
        result := result.(ok := true);
      }
      Complete();
    }

    method CloseStep(ok: bool)
      requires !completed ==> result == NO_REPORT
      modifies this`asked, this`result, this`completed, this`prepaid
      ensures State() == CloseBody(old(State()), ok).0
      ensures asked == Then(old(asked), Of(CloseBody(old(State()), ok).1))
    {
      hide Fail;
      if completed {
        return;
      }
      if timedOut {
        FinishClosed(true);
      } else if !ok {
        FailStage();
      } else {
        FinishClosed(false);
      }
    }

    method CloseReply(ok: bool)
      requires Valid()
      modifies this`pending, this`asked, this`result, this`completed, this`prepaid, this`held
      ensures Valid()
      ensures State() == OnClose(old(State()), ok).0
      ensures asked == Of(OnClose(old(State()), ok).1)
      ensures !old(completed) ==>
                asked.done.Some? && (asked.done.value.ok <==> ok && !old(timedOut))
                && (asked.done.value.timedOut <==> old(timedOut))
    {
      hide OnClose, CloseBody, ReleaseIfIdle, Then, Of, State, Taken;
      CloseReports(State(), ok);
      CloseIsReported(State(), ok);
      FieldsOfState();
      OnCloseIs(State(), ok);
      TakeReply();
      NothingThen(Of(CloseBody(State(), ok).1));
      CloseStep(ok);
      ReleaseSelf();
    }

    // ---------------------------------------------------------------- start, watchdog, engine

    method Hold()
      modifies this`held, this`asked
      ensures State() == Holding(old(State())) && asked == NOTHING
    {
      asked := NOTHING;
      held := true;
    }

    /** Submits Open. */
    method Begin(accept: bool)
      requires Valid() && !completed
      modifies this`pending, this`asked, this`completed, this`prepaid, this`held
      ensures Valid()
      ensures State() == Start(old(State()), accept).0
      ensures asked == Of(Start(old(State()), accept).1)
    {
      hide Start, AskOp, ReleaseIfIdle, Then, Of, State, Holding;
      StartReports(State(), accept);
      StartIs(State(), accept);
      Hold();
      NothingThen(Of(AskOp(State(), OpenOp, accept).1));
      SubmitOp(OpenOp, accept);
      if !accept {
        ReleaseSelf();
      }
    }

    method MarkTimedOut()
      modifies this`timedOut
      ensures State() == old(State()).(timedOut := true)
    {
      timedOut := true;
    }

    /** The deadline of this session has passed. */
    method RequestTimeout(accept: bool)
      requires Valid()
      modifies this`pending, this`closeRequested, this`asked, this`result, this`completed, this`timedOut, this`held
      ensures Valid()
      ensures State() == RequestWallTimeout(old(State()), accept).0
      ensures asked == Of(RequestWallTimeout(old(State()), accept).1)
    {
      hide State, SubmitClose, ReleaseIfIdle, Then;
      FieldsOfState();
      AskReports(State(), accept, []);
      asked := NOTHING;
      if completed || closeRequested {
        return;
      }
      MarkTimedOut();
      FieldsOfState();
      NothingThen(Of(SubmitClose(State(), accept).1));
      RequestClose(accept);
      ReleaseSelf();
    }

    method GiveUp()
      modifies this`remaining
      ensures State() == old(State()).(remaining := 0)
    {
      remaining := 0;
    }

    /** The engine gives up on this session. */
    method CloseSoon(accept: bool)
      requires Valid()
      modifies this`pending, this`closeRequested, this`asked, this`result, this`completed, this`remaining, this`held
      ensures Valid()
      ensures State() == CloseNow(old(State()), accept).0
      ensures asked == Of(CloseNow(old(State()), accept).1)
    {
      hide SubmitClose, ReleaseIfIdle;
      AskReports(State(), accept, []);
      asked := NOTHING;
      if completed {
        ReleaseSelf();
        return;
      }
      GiveUp();
      NothingThen(Of(SubmitClose(State(), accept).1));
      RequestClose(accept);
      ReleaseSelf();
    }

    /** The engine paid for the next read. */
    method IssueFromEngine(accept: bool, draws: seq<nat>)
      requires Valid()
      modifies this`pending, this`closeRequested, this`asked, this`sent, this`result, this`completed, this`held
      modifies this`remaining, this`requested, this`nextOffset, this`prepaid, this`issuedRead
      ensures Valid()
      ensures State() == IssueNextFromEngine(old(State()), accept, draws).0
      ensures asked == Of(IssueNextFromEngine(old(State()), accept, draws).1)
      ensures asked.accepted == Some(ReadOp) ==> sent == IssueNextFromEngine(old(State()), accept, draws).1.chunks
    {
      hide IssueNext, ReleaseIfIdle, IssueNextFromEngine, Then, State;
      AskReports(State(), accept, draws);
      IssueFromEngineIs(State(), accept, draws);
      NothingThen(Of(IssueNext(State(), accept, draws).1));
      asked := NOTHING;
      if !completed {
        IssueRead(accept, draws);
      }
      ReleaseSelf();
    }
  }
}
