/** The deadline table and the run together: what the watchdog can fire for. */
module TokenWaits {
  import opened RunConfigs
  import opened Schedulers
  import opened SessionSpec
  import opened SessionLedger
  import opened EngineSpec
  import opened EngineInvariants
  import opened EngineSteps
  import opened Effects
  import opened Watchdogs

  /** What becomes of the table when session `id` asks for `ask`. */
  function TableAfter(table: seq<Entry>, id: nat, ask: Table, w: World, deadline: real): seq<Entry> {
    match ask
    case Keep => table
    case Arm => Armed(table, w, id, deadline)
    case Disarm => Disarmed(table, w, id)
  }

  /** The table after one step of the run. */
  ghost function TableThen(sys: System, table: seq<Entry>, ev: Event, w: World, deadline: real): seq<Entry>
    requires Known(sys) && Enabled(sys, ev)
  {
    var effect := EffectOf(sys, ev);
    TableAfter(table, Subject(sys, effect), Asks(sys, effect).table, w, deadline)
  }

  /** The table has at most one entry per session, and only where the session
      has been armed since it last parked. */
  ghost predicate Covered(sys: System, table: seq<Entry>) {
    && OnePerSession(table)
    && (forall x: nat :: HasEntry(table, x) ==> x < |sys.tracks| && sys.tracks[x].entry)
  }

  /** The armed marks move exactly as the effect says. */
  ghost predicate Marks(sys: System, next: System, effect: Effect)
    requires Applies(sys, effect)
  {
    && |sys.tracks| <= |next.tracks|
    && (forall x: nat :: x < |sys.tracks| && x != Subject(sys, effect) ==>
          next.tracks[x].entry == sys.tracks[x].entry)
    && (!effect.NoEffect? ==>
          && Subject(sys, effect) < |next.tracks|
          && next.tracks[Subject(sys, effect)].entry
             == EntryAfter(effect.Runs? && sys.tracks[effect.id].entry, Asks(sys, effect).table))
  }

  lemma MovesMarks(sys: System, next: System, effect: Effect)
    requires Applies(sys, effect) && Moves(sys, next, effect)
    ensures Marks(sys, next, effect)
  {
    hide Handle, Possible, Start;
  }

  lemma StepMarks(sys: System, ev: Event)
    requires Known(sys) && Enabled(sys, ev)
    ensures Marks(sys, Step(sys, ev), EffectOf(sys, ev))
  {
    hide Step, EffectOf, Moves, Marks, Reports, Known, Enabled;
    StepDoes(sys, ev);
    MovesMarks(sys, Step(sys, ev), EffectOf(sys, ev));
  }

  lemma MarksCover(sys: System, next: System, effect: Effect, table: seq<Entry>, w: World, deadline: real)
    requires Applies(sys, effect) && Covered(sys, table) && Marks(sys, next, effect)
    requires !effect.NoEffect? ==> Subject(sys, effect) in w.alive
    ensures Covered(next, TableAfter(table, Subject(sys, effect), Asks(sys, effect).table, w, deadline))
  {
    hide Armed, Disarmed, OnePerSession, HasEntry, Advance, Begin, Possible;
    var id, ask := Subject(sys, effect), Asks(sys, effect).table;
    if ask == Arm {
      ArmedMovesOne(table, w, id, deadline);
    } else if ask == Disarm {
      DisarmedRemovesOne(table, w, id);
    }
  }

  /** One step of the run, or one scan of the table. A session that runs a
      handler is alive; of every other session the world may say anything. */
  datatype Moment = Act(ev: Event, deadline: real, w: World) | Scan(now: real, w: World)

  ghost predicate LegalTogether(sys: System, ms: seq<Moment>)
    decreases |ms|
  {
    ms == [] || (
      match ms[0]
      case Act(ev, _, w) =>
        Known(sys) && Enabled(sys, ev)
        && (!EffectOf(sys, ev).NoEffect? ==> Subject(sys, EffectOf(sys, ev)) in w.alive)
        && LegalTogether(Step(sys, ev), ms[1..])
      case Scan(_, _) => LegalTogether(sys, ms[1..]))
  }

  ghost function AfterTogether(sys: System, table: seq<Entry>, ms: seq<Moment>): (System, seq<Entry>)
    requires LegalTogether(sys, ms)
    decreases |ms|
  {
    if ms == [] then (sys, table)
    else
      match ms[0]
      case Act(ev, deadline, w) =>
        AfterTogether(Step(sys, ev), TableThen(sys, table, ev, w, deadline), ms[1..])
      case Scan(now, w) => AfterTogether(sys, Unexpired(table, w, now), ms[1..])
  }

  lemma {:induction false} TableStaysCovered(sys: System, table: seq<Entry>, ms: seq<Moment>)
    requires Inv(sys) && Known(sys) && Covered(sys, table) && LegalTogether(sys, ms)
    ensures var (s, t) := AfterTogether(sys, table, ms); Inv(s) && Covered(s, t)
    decreases |ms|
  {
    hide Inv, Known, Enabled, Step, Covered, Marks, EffectOf, TableAfter, Unexpired, Asks;
    if ms != [] {
      match ms[0] {
        case Act(ev, deadline, w) =>
          StepKeeps(sys, ev);
          StepMarks(sys, ev);
          MarksCover(sys, Step(sys, ev), EffectOf(sys, ev), table, w, deadline);
          TableStaysCovered(Step(sys, ev), TableThen(sys, table, ev, w, deadline), ms[1..]);
        case Scan(now, w) =>
          KeptCovered(sys, table, w, now);
          TableStaysCovered(sys, Unexpired(table, w, now), ms[1..]);
      }
    }
  }

  lemma KeptCovered(sys: System, table: seq<Entry>, w: World, now: real)
    requires Covered(sys, table)
    ensures Covered(sys, Unexpired(table, w, now))
  {
    ScanKeeps(table, w, now);
    hide Unexpired, OnePerSession, HasEntry;
  }

  /** Waiting for tokens never counts against a session: at no moment of a run
      can a scan fire for a session that is parked, unless it had already timed
      out; and whenever a scan fires for an unfinished session, a callback of
      that session is pending. */
  lemma TokenWaitNeverFires(cfg: RunConfig, start: real, ms: seq<Moment>, w: World, now: real, id: nat)
    requires Sane(cfg) && LegalTogether(Initial(cfg, start), ms)
    ensures var (sys, table) := AfterTogether(Initial(cfg, start), [], ms);
            && OnePerSession(table)
            && (id in Fired(table, w, now) ==>
                  && id < |sys.tracks|
                  && (!sys.tracks[id].s.completed ==> sys.tracks[id].owed.Total() > 0)
                  && (Places(sys, id) == 1 && !sys.tracks[id].s.completed ==> sys.tracks[id].s.timedOut))
  {
    var first := Initial(cfg, start);
    InitialInv(cfg, start);
    InvKnown(first);
    NothingCovered(first);
    hide Inv, Known, Covered;
    TableStaysCovered(first, [], ms);
    var (sys, table) := AfterTogether(first, [], ms);
    if id in Fired(table, w, now) {
      FiredHasEntry(sys, table, w, now, id);
      EntryMeansPending(sys, id);
    }
    CoveredOne(sys, table);
  }

  lemma NothingCovered(sys: System)
    ensures Covered(sys, [])
  {
  }

  lemma CoveredOne(sys: System, table: seq<Entry>)
    requires Covered(sys, table)
    ensures OnePerSession(table)
  {
  }

  lemma FiredHasEntry(sys: System, table: seq<Entry>, w: World, now: real, id: nat)
    requires Covered(sys, table) && id in Fired(table, w, now)
    ensures id < |sys.tracks| && sys.tracks[id].entry
  {
    ScanFires(table, w, now);
    var e :| e in table && e.session == id && w.Expired(e, now);
    assert HasEntry(table, id);
  }

  lemma EntryMeansPending(sys: System, id: nat)
    requires Inv(sys) && id < |sys.tracks| && sys.tracks[id].entry
    ensures !sys.tracks[id].s.completed ==> sys.tracks[id].owed.Total() > 0
    ensures Places(sys, id) == 1 && !sys.tracks[id].s.completed ==> sys.tracks[id].s.timedOut
  {
    hide Ledger, Counts, Layout, BucketOk, SlotsOk, TokensOk, OrderOk;
    assert TrackOk(sys, id);
  }
}
