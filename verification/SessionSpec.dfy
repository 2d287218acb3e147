/** What each handler of a file session does to the session, as functions on
    values. One function per method body that runs under the session lock.

    XrdCl is reduced to its answers: `accept` says whether the submission made
    by the handler is accepted, `ok` whether the delivered callback reports
    success, `got` how many bytes it returned, `draws` the random offsets. */
module SessionSpec {
  import opened Prelude

  const WORD32: nat := 0x1_0000_0000
  const WORD64: nat := 0x1_0000_0000_0000_0000

  datatype Op = OpenOp | StatOp | ReadOp | CloseOp

  datatype Options = Options(chunkSize: nat, offset: nat, maxBytes: nat, vectorChunks: nat,
                             randomOffset: bool, deadline: bool)

  /** One piece of a read: file offset, length, and where it lands in the buffer. */
  datatype Chunk = Chunk(off: nat, len: nat, buf: nat)

  datatype Report = Report(ok: bool, timedOut: bool, bytesRead: nat, ops: nat)

  /** What a handler asks of the deadline table. */
  datatype Table = Keep | Arm | Disarm

  /** The effects of one handler. `refunded` is the sum of its on_refund calls:
      the bucket cannot tell them from one call at the same instant. */
  datatype Fx = Fx(refunded: nat, accepted: Option<Op>, chunks: seq<Chunk>,
                   done: Option<Report>, parked: bool, table: Table)

  /** The report of a session that has not ended. */
  const NO_REPORT := Report(false, false, 0, 0)

  const QUIET := Fx(0, None, [], None, false, Keep)

  datatype Session = Session(
    opts: Options, paced: bool, prepaid: nat,
    fileSize: nat, remaining: nat, nextOffset: nat, requested: nat, bytesRead: nat, ops: nat,
    pending: int, timedOut: bool, closeRequested: bool, budgetSet: bool, issuedRead: bool,
    completed: bool, held: bool, result: Report)

  function Fresh(opts: Options, paced: bool, prepaid: nat): Session {
    Session(opts, paced, prepaid, 0, 0, 0, 0, 0, 0, 0, false, false, false, false, false, false,
            NO_REPORT)
  }

  // ---------------------------------------------------------------- sizes

  /** The size the session computes for one operation: a 32-bit product. */
  function OpBytes(o: Options): nat {
    if o.vectorChunks > 0 then (o.chunkSize * o.vectorChunks) % 0x1_0000_0000 else o.chunkSize
  }

  /** The size of one operation, computed without truncation. */
  function FullOpBytes(o: Options): nat {
    if o.vectorChunks > 0 then o.chunkSize * o.vectorChunks else o.chunkSize
  }

  /** What the engine pays before the next read. */
  function NextOpBytes(s: Session): nat {
    if !s.budgetSet then OpBytes(s.opts)
    else if s.remaining == 0 then 0
    else Min(OpBytes(s.opts), s.remaining)
  }

  // ---------------------------------------------------------------- read lists

  /** An offset for a read of `len` bytes; `draw` is the random draw. */
  function SampleOffset(draw: nat, fileSize: nat, len: nat): nat {
    if fileSize == 0 || len == 0 || len >= fileSize then 0 else draw % (fileSize - len + 1)
  }

  function DrawAt(draws: seq<nat>, i: nat): nat {
    if i < |draws| then draws[i] else 0
  }

  /** The pieces of a vector read from the i-th on. */
  function VectorChunks(o: Options, fileSize: nat, draws: seq<nat>,
                        i: nat, left: nat, off: nat, buf: nat): seq<Chunk>
    decreases o.vectorChunks - i
  {
    if i >= o.vectorChunks || left == 0 then []
    else
      var len := Min(o.chunkSize, left);
      var at := if o.randomOffset then SampleOffset(DrawAt(draws, i), fileSize, len) else off;
      [Chunk(at, len, buf)] + VectorChunks(o, fileSize, draws, i + 1, left - len, off + len, buf + len)
  }

  function ReadList(s: Session, draws: seq<nat>): seq<Chunk> {
    if s.opts.vectorChunks > 0 then
      VectorChunks(s.opts, s.fileSize, draws, 0, s.remaining, s.nextOffset, 0)
    else
      var len := Min(s.opts.chunkSize, s.remaining);
      [Chunk(if s.opts.randomOffset then SampleOffset(DrawAt(draws, 0), s.fileSize, len) else s.nextOffset, len, 0)]
  }

  function TotalLen(cs: seq<Chunk>): nat {
    if cs == [] then 0 else cs[0].len + TotalLen(cs[1..])
  }

  // ---------------------------------------------------------------- shared steps

  function RefundOf(s: Session, n: nat): nat {
    if s.paced then n else 0
  }

  function Prepaid(s: Session): nat {
    if s.issuedRead then 0 else RefundOf(s, s.prepaid)
  }

  function DropPrepaid(s: Session): Session {
    if s.issuedRead then s else s.(prepaid := 0)
  }

  function ArmOf(s: Session): Table {
    if s.opts.deadline then Arm else Keep
  }

  /** Marks the session done, once, and reports it. */
  function Finish(s: Session, r: Report, fx: Fx): (Session, Fx) {
    if s.completed then (s, fx) else (s.(completed := true, result := r), fx.(done := Some(r)))
  }

  /** Drops the self-reference once nothing can call back any more. */
  function ReleaseIfIdle(s: Session): Session {
    if s.pending == 0 && s.completed then s.(held := false) else s
  }

  function Released(out: (Session, Fx)): (Session, Fx) {
    (ReleaseIfIdle(out.0), out.1)
  }

  function Partial(s: Session): Report {
    Report(false, false, s.bytesRead, s.ops)
  }

  function Fail(s: Session): (Session, Fx) {
    Finish(DropPrepaid(s), Partial(s), QUIET.(refunded := Prepaid(s)))
  }

  function FailRead(s: Session): (Session, Fx) {
    Finish(s.(requested := 0), Partial(s), QUIET.(refunded := RefundOf(s, s.requested)))
  }

  function SubmitClose(s: Session, accept: bool): (Session, Fx) {
    if s.closeRequested then (s, QUIET)
    else if accept then
      (s.(closeRequested := true, pending := s.pending + 1),
       QUIET.(accepted := Some(CloseOp), table := ArmOf(s)))
    else if s.pending > 0 then (s, QUIET.(table := ArmOf(s)))
    else Finish(s.(closeRequested := true), Report(false, s.timedOut, s.bytesRead, s.ops), QUIET.(table := ArmOf(s)))
  }

  function IssueNext(s0: Session, accept: bool, draws: seq<nat>): (Session, Fx) {
    if s0.completed then (s0, QUIET)
    else
      var s := if s0.timedOut then s0.(remaining := 0) else s0;
      if s.remaining == 0 then
        var (s', fx) := SubmitClose(DropPrepaid(s), accept);
        (s', fx.(refunded := Prepaid(s) + fx.refunded))
      else
        var chunks := ReadList(s, draws);
        var requested := TotalLen(chunks);
        var next := if s.opts.randomOffset && s.opts.vectorChunks == 0 then chunks[0].off else s.nextOffset;
        var excess := if s.prepaid > requested then RefundOf(s, s.prepaid - requested) else 0;
        var issued := s.(requested := requested, nextOffset := next, prepaid := 0, issuedRead := true);
        if accept then
          (issued.(pending := s.pending + 1),
           QUIET.(refunded := excess, accepted := Some(ReadOp), chunks := chunks, table := ArmOf(s)))
        else
          Finish(issued.(requested := 0), Partial(s),
                 QUIET.(refunded := excess + RefundOf(s, requested), table := ArmOf(s)))
  }

  // ---------------------------------------------------------------- handlers

  function Start(s: Session, accept: bool): (Session, Fx) {
    if accept then
      (s.(held := true, pending := s.pending + 1), QUIET.(accepted := Some(OpenOp), table := ArmOf(s)))
    else
      Released(Finish(DropPrepaid(s.(held := true)), NO_REPORT,
                      QUIET.(refunded := Prepaid(s), table := ArmOf(s))))
  }

  function RequestWallTimeout(s: Session, accept: bool): (Session, Fx) {
    if s.completed || s.closeRequested then (s, QUIET)
    else Released(SubmitClose(s.(timedOut := true), accept))
  }

  function IssueNextFromEngine(s: Session, accept: bool, draws: seq<nat>): (Session, Fx) {
    Released(IssueNext(s, accept, draws))
  }

  function CloseNow(s: Session, accept: bool): (Session, Fx) {
    if s.completed then Released((s, QUIET))
    else Released(SubmitClose(s.(remaining := 0), accept))
  }

  function OnOpen(s0: Session, ok: bool, accept: bool): (Session, Fx) {
    var s := s0.(pending := s0.pending - 1);
    if s.completed then Released((s, QUIET))
    else if !ok then Released(Fail(s))
    else if s.timedOut then Released(SubmitClose(s, accept))
    else if accept then
      Released((s.(pending := s.pending + 1), QUIET.(accepted := Some(StatOp), table := ArmOf(s))))
    else
      Released(Finish(DropPrepaid(s), NO_REPORT, QUIET.(refunded := Prepaid(s), table := ArmOf(s))))
  }

  /** The bytes the session will read of a file of `size` bytes. */
  function Budget(o: Options, size: nat): nat {
    if o.maxBytes > 0 then Min(size, o.maxBytes) else size
  }

  function OnStat(s0: Session, ok: bool, size: nat, accept: bool, draws: seq<nat>): (Session, Fx) {
    var s := s0.(pending := s0.pending - 1);
    if s.completed then Released((s, QUIET))
    else if !ok then Released(Fail(s))
    else
      var sized := s.(fileSize := size);
      var budget := Budget(s.opts, size);
      if s.opts.randomOffset then
        Released(IssueNext(sized.(remaining := budget, nextOffset := 0, budgetSet := true), accept, draws))
      else if s.opts.offset >= size then
        Released(Finish(DropPrepaid(sized), NO_REPORT, QUIET.(refunded := Prepaid(sized))))
      else
        Released(IssueNext(sized.(remaining := Min(size - s.opts.offset, budget), nextOffset := s.opts.offset,
                                  budgetSet := true), accept, draws))
  }

  /** The read counters after a successful reply of `got` bytes. */
  function Tallied(s: Session, got: nat): Session {
    s.(ops := s.ops + 1, bytesRead := s.bytesRead + got,
       nextOffset := if s.opts.randomOffset then s.nextOffset else s.nextOffset + got)
  }

  /** What is left to read after such a reply; a short one ends the file. */
  function Used(s: Session, got: nat): Session {
    s.(remaining := if got < s.requested then 0 else (s.remaining - got) % 0x1_0000_0000_0000_0000, requested := 0)
  }

  function Absorb(s: Session, got: nat): Session {
    Used(Tallied(s, got), got)
  }

  /** What a read reply of `got` bytes leaves unused. */
  function Shortfall(s: Session, got: nat): nat {
    if got < s.requested then RefundOf(s, s.requested - got) else 0
  }

  function OnRead(s0: Session, ok: bool, got: nat, accept: bool, draws: seq<nat>): (Session, Fx) {
    var s := s0.(pending := s0.pending - 1);
    if s.completed then Released((s, QUIET))
    else if !ok then Released(FailRead(s))
    else
      var short := Shortfall(s, got);
      var read := Absorb(s, got);
      if read.paced && read.remaining > 0 then
        (read, QUIET.(refunded := short, parked := true, table := Disarm))
      else
        var (s', fx) := IssueNext(read, accept, draws);
        Released((s', fx.(refunded := short + fx.refunded)))
  }

  function OnClose(s0: Session, ok: bool): (Session, Fx) {
    var s := s0.(pending := s0.pending - 1);
    if s.completed then Released((s, QUIET))
    else if s.timedOut then Released(Finish(s, Report(false, true, s.bytesRead, s.ops), QUIET))
    else if !ok then Released(Fail(s))
    else Released(Finish(s, Report(true, false, s.bytesRead, s.ops), QUIET))
  }
}
