/** The table of deadlines one thread keeps for all sessions: a list of weak
    references, compacted in place. */
module Watchdogs {
  import opened Prelude

  /** A weak reference names a session; whether that session still exists, and
      whether it is over, is not the table's to say. */
  datatype Entry = Entry(deadline: real, session: nat)

  /** What the outside says of the sessions while one operation runs. */
  datatype World = World(alive: set<nat>, over: set<nat>) {
    predicate Watched(e: Entry) {
      e.session in alive && e.session !in over
    }

    predicate Expired(e: Entry, now: real) {
      Watched(e) && e.deadline <= now
    }
  }

  // ---------------------------------------------------------------- specification

  function Armed(es: seq<Entry>, w: World, session: nat, deadline: real): seq<Entry> {
    if es == [] then [Entry(deadline, session)]
    else if es[0].session in w.alive && es[0].session == session then [Entry(deadline, session)] + es[1..]
    else [es[0]] + Armed(es[1..], w, session, deadline)
  }

  function Disarmed(es: seq<Entry>, w: World, session: nat): seq<Entry> {
    if es == [] then []
    else
      var e := es[|es| - 1];
      Disarmed(es[..|es| - 1], w, session) + if e.session in w.alive && e.session != session then [e] else []
  }

  /** The entries a scan at instant `now` keeps. */
  function Unexpired(es: seq<Entry>, w: World, now: real): seq<Entry> {
    if es == [] then []
    else
      var e := es[|es| - 1];
      Unexpired(es[..|es| - 1], w, now) + if w.Watched(e) && e.deadline > now then [e] else []
  }

  /** The sessions it fires for. */
  function Fired(es: seq<Entry>, w: World, now: real): seq<nat> {
    if es == [] then []
    else
      var e := es[|es| - 1];
      Fired(es[..|es| - 1], w, now) + if w.Expired(e, now) then [e.session] else []
  }

  function Earliest(es: seq<Entry>, limit: real): real {
    if es == [] then limit else MinReal(Earliest(es[..|es| - 1], limit), es[|es| - 1].deadline)
  }

  ghost predicate OnePerSession(es: seq<Entry>) {
    forall i, j :: 0 <= i < j < |es| ==> es[i].session != es[j].session
  }

  ghost predicate HasEntry(es: seq<Entry>, session: nat) {
    exists i :: 0 <= i < |es| && es[i].session == session
  }

  // ---------------------------------------------------------------- arming

  /** Re-arming moves the deadline and nothing else: the other entries stay as
      they are and in their order, and the session has exactly one entry. */
  lemma {:induction false} ArmedMovesOne(es: seq<Entry>, w: World, session: nat, deadline: real)
    requires OnePerSession(es) && session in w.alive
    ensures var a := Armed(es, w, session, deadline);
            && OnePerSession(a)
            && (forall x :: HasEntry(a, x) <==> HasEntry(es, x) || x == session)
            && |a| == |es| + (if HasEntry(es, session) then 0 else 1)
            && (forall i :: 0 <= i < |es| && es[i].session != session ==> a[i] == es[i])
            && (forall i :: 0 <= i < |a| && a[i].session == session ==> a[i].deadline == deadline)
    decreases |es|
  {
    var a := Armed(es, w, session, deadline);
    if es == [] {
      assert a[0].session == session;
    } else if es[0].session == session {
      assert a == [Entry(deadline, session)] + es[1..];
      assert forall i :: 0 < i < |es| ==> a[i] == es[i];
      assert HasEntry(es, session);
      forall x | HasEntry(es, x) || x == session
        ensures HasEntry(a, x)
      {
        if x == session {
          assert a[0].session == x;
        } else {
          var i :| 0 <= i < |es| && es[i].session == x;
          assert a[i].session == x;
        }
      }
    } else {
      var rest := es[1..];
      assert forall i :: 0 <= i < |rest| ==> rest[i] == es[i + 1];
      ArmedMovesOne(rest, w, session, deadline);
      var b := Armed(rest, w, session, deadline);
      assert a == [es[0]] + b;
      ArmedShift(es, rest, a, b, session);
    }
  }

  /** One turn of the search of Arm. */
  lemma ArmedFrom(es: seq<Entry>, w: World, session: nat, deadline: real, i: nat)
    requires i < |es|
    ensures var found := es[i].session in w.alive && es[i].session == session;
            && (found ==> es[..i] + Armed(es[i..], w, session, deadline) == es[i := Entry(deadline, session)])
            && (!found ==> es[..i] + Armed(es[i..], w, session, deadline)
                           == es[..i + 1] + Armed(es[i + 1..], w, session, deadline))
  {
    assert es[i..][1..] == es[i + 1..] && es[..i + 1] == es[..i] + [es[i]];
    if es[i].session in w.alive && es[i].session == session {
      assert es[i := Entry(deadline, session)] == es[..i] + [Entry(deadline, session)] + es[i + 1..];
    } else {
      assert es[..i] + ([es[i]] + Armed(es[i + 1..], w, session, deadline))
          == es[..i] + [es[i]] + Armed(es[i + 1..], w, session, deadline);
    }
  }

  /** One more entry of another session in front changes nothing. */
  lemma ArmedShift(es: seq<Entry>, rest: seq<Entry>, a: seq<Entry>, b: seq<Entry>, session: nat)
    requires es != [] && rest == es[1..] && es[0].session != session && OnePerSession(es) && a == [es[0]] + b
    requires OnePerSession(b) && (forall x :: HasEntry(b, x) <==> HasEntry(rest, x) || x == session)
    requires |b| == |rest| + (if HasEntry(rest, session) then 0 else 1)
    requires forall i :: 0 <= i < |rest| && rest[i].session != session ==> b[i] == rest[i]
    ensures OnePerSession(a)
    ensures forall x :: HasEntry(a, x) <==> HasEntry(es, x) || x == session
    ensures |a| == |es| + (if HasEntry(es, session) then 0 else 1)
    ensures forall i :: 0 <= i < |es| && es[i].session != session ==> a[i] == es[i]
  {
    FrontEntry(es);
    FrontEntry(a);
    assert a[1..] == b;
    assert !HasEntry(rest, es[0].session);
    assert !HasEntry(b, es[0].session);
    forall i, j | 0 <= i < j < |a|
      ensures a[i].session != a[j].session
    {
      assert a[j] == b[j - 1];
      if i > 0 {
        assert a[i] == b[i - 1];
      }
    }
  }

  lemma FrontEntry(es: seq<Entry>)
    requires es != []
    ensures forall x :: HasEntry(es, x) <==> es[0].session == x || HasEntry(es[1..], x)
  {
    forall x
      ensures HasEntry(es, x) <==> es[0].session == x || HasEntry(es[1..], x)
    {
      if HasEntry(es[1..], x) {
        var i :| 0 <= i < |es[1..]| && es[1..][i].session == x;
        assert es[i + 1].session == x;
      }
      if HasEntry(es, x) && es[0].session != x {
        var i :| 0 <= i < |es| && es[i].session == x;
        assert es[1..][i - 1].session == x;
      }
    }
  }

  // ---------------------------------------------------------------- dropping entries

  lemma LastEntry(es: seq<Entry>, e: Entry)
    ensures forall x :: HasEntry(es + [e], x) <==> HasEntry(es, x) || e.session == x
  {
    forall x
      ensures HasEntry(es + [e], x) <==> HasEntry(es, x) || e.session == x
    {
      if HasEntry(es, x) {
        var i :| 0 <= i < |es| && es[i].session == x;
        assert (es + [e])[i].session == x;
      }
      if e.session == x {
        assert (es + [e])[|es|].session == x;
      }
    }
  }

  /** Disarming removes the session and the dead, and keeps every other entry. */
  lemma {:induction false} DisarmedRemovesOne(es: seq<Entry>, w: World, session: nat)
    requires OnePerSession(es)
    ensures var d := Disarmed(es, w, session);
            && OnePerSession(d)
            && (forall x :: HasEntry(d, x) <==> HasEntry(es, x) && x in w.alive && x != session)
            && (forall e :: e in d <==> e in es && e.session in w.alive && e.session != session)
    decreases |es|
  {
    if es != [] {
      var init, e := es[..|es| - 1], es[|es| - 1];
      assert es == init + [e];
      DisarmedRemovesOne(init, w, session);
      var d := Disarmed(init, w, session);
      LastEntry(init, e);
      LastEntry(d, e);
      AppendKeepsOne(init, d, e);
      assert d + [] == d;
    }
  }

  lemma AppendKeepsOne(init: seq<Entry>, d: seq<Entry>, e: Entry)
    requires OnePerSession(init + [e]) && OnePerSession(d) && forall x :: HasEntry(d, x) ==> HasEntry(init, x)
    ensures OnePerSession(d + [e]) && !HasEntry(init, e.session)
  {
    assert !HasEntry(init, e.session) by {
      forall i | 0 <= i < |init|
        ensures init[i].session != e.session
      {
        assert (init + [e])[i] == init[i] && (init + [e])[|init|] == e;
      }
    }
    forall i, j | 0 <= i < j < |d + [e]|
      ensures (d + [e])[i].session != (d + [e])[j].session
    {
      if j == |d| {
        assert HasEntry(d, d[i].session);
      }
    }
  }

  /** A scan keeps exactly the live, unfinished, unexpired entries. */
  lemma {:induction false} ScanKeeps(es: seq<Entry>, w: World, now: real)
    requires OnePerSession(es)
    ensures var k := Unexpired(es, w, now);
            && OnePerSession(k)
            && (forall x :: HasEntry(k, x) ==> HasEntry(es, x))
            && (forall e :: e in k <==> e in es && w.Watched(e) && e.deadline > now)
    decreases |es|
  {
    if es != [] {
      var init, e := es[..|es| - 1], es[|es| - 1];
      assert es == init + [e];
      ScanKeeps(init, w, now);
      var k := Unexpired(init, w, now);
      LastEntry(init, e);
      LastEntry(k, e);
      AppendKeepsOne(init, k, e);
      assert k + [] == k;
    }
  }

  /** The instant the thread wakes up for is the earliest deadline it kept, or
      the limit: never behind an entry, never in the past. */
  lemma {:induction false} NextDeadline(k: seq<Entry>, now: real, limit: real)
    requires limit > now && forall e :: e in k ==> e.deadline > now
    ensures now < Earliest(k, limit) <= limit
    ensures forall e :: e in k ==> Earliest(k, limit) <= e.deadline
    ensures Earliest(k, limit) < limit ==> exists e :: e in k && e.deadline == Earliest(k, limit)
    decreases |k|
  {
    if k != [] {
      var init, e := k[..|k| - 1], k[|k| - 1];
      assert k == init + [e];
      assert forall y :: y in init ==> y in k;
      NextDeadline(init, now, limit);
      if Earliest(k, limit) < limit {
        if Earliest(init, limit) <= e.deadline {
          var y :| y in init && y.deadline == Earliest(init, limit);
          assert y in k;
        } else {
          assert e in k;
        }
      }
    }
  }

  lemma EarliestAppend(k: seq<Entry>, e: Entry, limit: real)
    ensures Earliest(k + [e], limit) == MinReal(Earliest(k, limit), e.deadline)
    ensures e in k + [e] && forall x :: x in k ==> x in k + [e]
  {
    assert (k + [e])[..|k|] == k;
  }

  /** It fires for exactly the watched sessions whose deadline has passed, once each. */
  lemma {:induction false} ScanFires(es: seq<Entry>, w: World, now: real)
    requires OnePerSession(es)
    ensures forall x :: x in Fired(es, w, now) <==> exists e :: e in es && e.session == x && w.Expired(e, now)
    ensures forall i, j :: 0 <= i < j < |Fired(es, w, now)| ==> Fired(es, w, now)[i] != Fired(es, w, now)[j]
    decreases |es|
  {
    if es != [] {
      var init, e := es[..|es| - 1], es[|es| - 1];
      assert es == init + [e];
      ScanFires(init, w, now);
      var f := Fired(init, w, now);
      AppendKeepsOne(init, [], e);
      forall x
        ensures x in Fired(es, w, now) <==> exists y :: y in es && y.session == x && w.Expired(y, now)
      {
        if x in f {
          var y :| y in init && y.session == x && w.Expired(y, now);
          assert y in es;
        }
        if x == e.session && w.Expired(e, now) {
          assert e in es;
        }
      }
      NotIn(init, e.session);
      assert w.Expired(e, now) ==> e.session !in f;
      var g := Fired(es, w, now);
      forall i, j | 0 <= i < j < |g|
        ensures g[i] != g[j]
      {
        if j == |f| {
          assert g[i] in f;
        }
      }
    }
  }

  lemma NotIn(es: seq<Entry>, session: nat)
    requires !HasEntry(es, session)
    ensures forall y :: y in es ==> y.session != session
  {
  }

  /** Kept, fired and dead or finished: every entry meets exactly one fate. */
  lemma ScanLosesNothing(es: seq<Entry>, w: World, now: real, e: Entry)
    requires OnePerSession(es) && e in es && w.Watched(e)
    ensures (e in Unexpired(es, w, now)) != (e.session in Fired(es, w, now))
  {
    ScanKeeps(es, w, now);
    ScanFires(es, w, now);
    if e.session in Fired(es, w, now) {
      var y :| y in es && y.session == e.session && w.Expired(y, now);
      SameEntry(es, e, y);
    } else {
      assert !w.Expired(e, now);
    }
  }

  lemma SameEntry(es: seq<Entry>, a: Entry, b: Entry)
    requires OnePerSession(es) && a in es && b in es && a.session == b.session
    ensures a == b
  {
    var i :| 0 <= i < |es| && es[i] == a;
    var j :| 0 <= j < |es| && es[j] == b;
    assert i == j;
  }

  /** One turn of the compaction loop of Disarm. */
  lemma DisarmTurn(es: seq<Entry>, w: World, session: nat, i: nat)
    requires i < |es|
    ensures Disarmed(es[..i + 1], w, session)
         == Disarmed(es[..i], w, session) + if es[i].session in w.alive && es[i].session != session then [es[i]] else []
  {
    assert es[..i + 1][..i] == es[..i];
  }

  /** Moving an entry down to the end of the part already compacted. */
  lemma MoveDown(es: seq<Entry>, out: nat, i: nat)
    requires out <= i < |es|
    ensures var m := es[out := es[i]];
            && m[..out + 1] == es[..out] + [es[i]] && m[i + 1..] == es[i + 1..] && (out == i ==> m == es)
  {
  }

  lemma Rest(a: seq<Entry>, b: seq<Entry>, i: nat)
    requires i < |a| == |b| && a[i..] == b[i..]
    ensures a[i] == b[i] && a[i + 1..] == b[i + 1..]
  {
    assert a[i] == a[i..][0] && a[i + 1..] == a[i..][1..] && b[i + 1..] == b[i..][1..];
  }

  /** The loop of Disarm before its i-th turn: `es` is the list being compacted. */
  ghost predicate Compacted(es: seq<Entry>, was: seq<Entry>, w: World, session: nat, i: nat, out: nat)
    requires out <= i <= |es| == |was|
  {
    es[..out] == Disarmed(was[..i], w, session) && es[i..] == was[i..]
  }

  lemma CompactBegins(was: seq<Entry>, w: World, session: nat)
    ensures Compacted(was, was, w, session, 0, 0)
  {
  }

  lemma CompactEnds(es: seq<Entry>, was: seq<Entry>, w: World, session: nat, out: nat)
    requires out <= |es| == |was| && Compacted(es, was, w, session, |was|, out)
    ensures es[..out] == Disarmed(was, w, session)
  {
    hide Disarmed;
    assert was[..|was|] == was;
  }

  /** One turn of that loop: the entry is dropped or moved down. */
  lemma CompactStep(es: seq<Entry>, was: seq<Entry>, w: World, session: nat, i: nat, out: nat)
    requires out <= i < |es| == |was| && Compacted(es, was, w, session, i, out)
    ensures var keep := es[i].session in w.alive && es[i].session != session;
            && (!keep ==> Compacted(es, was, w, session, i + 1, out))
            && (keep ==> Compacted(es[out := es[i]], was, w, session, i + 1, out + 1))
    ensures es[i := es[i]] == es
  {
    hide Disarmed;
    DisarmTurn(was, w, session, i);
    Rest(es, was, i);
    MoveDown(es, out, i);
  }

  /** The scan loop before its i-th turn: `es` is the list being compacted. */
  ghost predicate Scanned(es: seq<Entry>, was: seq<Entry>, w: World, now: real, i: nat, out: nat,
                          expired: seq<nat>, next: real)
    requires out <= i <= |es| == |was|
  {
    && es[..out] == Unexpired(was[..i], w, now) && expired == Fired(was[..i], w, now)
    && next == Earliest(es[..out], now + 1.0) && es[i..] == was[i..]
  }

  lemma ScanBegins(was: seq<Entry>, w: World, now: real)
    ensures Scanned(was, was, w, now, 0, 0, [], now + 1.0)
  {
  }

  lemma ScanEnds(es: seq<Entry>, was: seq<Entry>, w: World, now: real, out: nat, expired: seq<nat>, next: real)
    requires out <= |es| == |was| && Scanned(es, was, w, now, |was|, out, expired, next)
    ensures es[..out] == Unexpired(was, w, now) && expired == Fired(was, w, now)
    ensures next == Earliest(es[..out], now + 1.0)
  {
    assert was[..|was|] == was;
  }

  /** One turn of the compaction loop of the scan, in its three cases. */
  lemma ScanStep(es: seq<Entry>, was: seq<Entry>, w: World, now: real, i: nat, out: nat, expired: seq<nat>, next: real)
    requires out <= i < |es| == |was| && Scanned(es, was, w, now, i, out, expired, next)
    ensures var e := es[i];
            && (!w.Watched(e) ==> Scanned(es, was, w, now, i + 1, out, expired, next))
            && (w.Expired(e, now) ==> Scanned(es, was, w, now, i + 1, out, expired + [e.session], next))
            && (w.Watched(e) && e.deadline > now ==>
                  Scanned(es[out := e], was, w, now, i + 1, out + 1, expired, MinReal(next, e.deadline)))
    ensures es[i := es[i]] == es
  {
    assert was[..i + 1][..i] == was[..i];
    Rest(es, was, i);
    MoveDown(es, out, i);
    EarliestAppend(es[..out], es[i], now + 1.0);
    hide Earliest;
  }

  // ---------------------------------------------------------------- the class

  class SessionDeadlineWatchdog {
    var entries: seq<Entry>
    var stopped: bool

    constructor ()
      ensures entries == [] && !stopped
    {
      entries := [];
      stopped := false;
    }

    method Arm(session: nat, timeout: real, now: real, w: World)
      modifies this`entries
      ensures entries == if timeout <= 0.0 || stopped then old(entries)
                         else Armed(old(entries), w, session, now + timeout)
    {
      if timeout <= 0.0 || stopped {
        return;
      }
      var deadline := now + timeout;
      var found, i := false, 0;
      while i < |entries| && !found
        invariant 0 <= i <= |old(entries)|
        invariant !found ==> entries == old(entries)
        invariant !found ==>
          Armed(old(entries), w, session, deadline)
          == old(entries)[..i] + Armed(old(entries)[i..], w, session, deadline)
        invariant found ==> entries == Armed(old(entries), w, session, deadline)
        decreases !found, |old(entries)| - i
      {
        ArmedFrom(entries, w, session, deadline, i);
        if entries[i].session in w.alive && entries[i].session == session {
          entries := entries[i := entries[i].(deadline := deadline)];
          found := true;
        } else {
          i := i + 1;
        }
      }
      if !found {
        entries := entries + [Entry(deadline, session)];
      }
    }

    method Disarm(session: nat, w: World)
      modifies this`entries
      ensures entries == Disarmed(old(entries), w, session)
    {
      hide Compacted, Disarmed;
      ghost var was := entries;
      CompactBegins(was, w, session);
      var out: nat, i: nat, n := 0, 0, |entries|;
      while i < n
        invariant out <= i <= n == |entries| == |was|
        invariant Compacted(entries, was, w, session, i, out)
      {
        CompactStep(entries, was, w, session, i, out);
        if entries[i].session in w.alive && entries[i].session != session {
          if out != i {
            entries := entries[out := entries[i]];
          }
          out := out + 1;
        }
        i := i + 1;
      }
      CompactEnds(entries, was, w, session, out);
      entries := entries[..out];
    }

    /** One turn of the watchdog thread up to the point where it fires. */
    method Scan(now: real, w: World) returns (expired: seq<nat>, next: real)
      modifies this`entries
      ensures entries == Unexpired(old(entries), w, now)
      ensures expired == Fired(old(entries), w, now)
      ensures next == Earliest(entries, now + 1.0)
    {
      hide Scanned, Unexpired, Fired, Earliest;
      ghost var was := entries;
      ScanBegins(was, w, now);
      next := now + 1.0;
      expired := [];
      var out: nat, i: nat, n := 0, 0, |entries|;
      while i < n
        invariant out <= i <= n == |entries| == |was|
        invariant Scanned(entries, was, w, now, i, out, expired, next)
      {
        ScanStep(entries, was, w, now, i, out, expired, next);
        if w.Watched(entries[i]) {
          if entries[i].deadline <= now {
            expired := expired + [entries[i].session];
          } else {
            next := MinReal(next, entries[i].deadline);
            if out != i {
              entries := entries[out := entries[i]];
            }
            out := out + 1;
          }
        }
        i := i + 1;
      }
      ScanEnds(entries, was, w, now, out, expired, next);
      entries := entries[..out];
    }
  }
}
