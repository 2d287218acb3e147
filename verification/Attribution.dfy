/** Which server gets the credit: the table of servers is, entry by entry, what
    the observations naming that server say. */
module Attributions {
  import opened Prelude
  import opened Metrics

  /** The observation is of a session served by server k; sessions without a
      server name belong to "unknown". */
  predicate Names(o: Observation, k: string) {
    !o.SetSite? && (o.server == k || (o.server == "" && k == UNKNOWN_SERVER))
  }

  /** What a server has to its credit. */
  function CreditOf(servers: map<string, Endpoint>, k: string, f: Figure): nat {
    if k in servers then FigureOf(servers[k], f) else 0
  }

  /** The site a server is at; no entry and no site are told apart. */
  function PlaceOf(servers: map<string, Endpoint>, k: string): Option<string> {
    if k in servers then Some(servers[k].site) else None
  }

  /** The place of server k after one observation, from its place before. */
  function PlaceAfter(place: Option<string>, k: string, o: Observation, lookup: string -> string): Option<string> {
    if Names(o, k) then
      if place.Some? && place.value != "" then place
      else if o.site != "" then Some(o.site)
      else Some(lookup(k))
    else if o.SetSite? && o.server == k && o.site != "" && place.Some? then Some(o.site)
    else place
  }

  /** One observation credits the server it names with its worth and no other,
      and settles the place of that server. */
  lemma CreditNames(servers: map<string, Endpoint>, o: Observation, lookup: string -> string, k: string, f: Figure)
    requires k != ""
    ensures CreditOf(Credit(servers, o, lookup), k, f)
         == CreditOf(servers, k, f) + if Names(o, k) then Worth(o, f) else 0
    ensures PlaceOf(Credit(servers, o, lookup), k) == PlaceAfter(PlaceOf(servers, k), k, o, lookup)
  {
    hide FigureOf;
    if Names(o, k) {
      CreditedAdds(Entry(servers, k).(server := k), o, lookup, f);
      EntryFigure(servers, k, f);
    } else if o.SetSite? && o.server == k && k in servers {
      CreditedAdds(servers[k], o, lookup, f);
    }
  }

  /** No observation makes an entry without a name, or one that misnames itself. */
  ghost predicate WellNamed(servers: map<string, Endpoint>) {
    forall k :: k in servers ==> k != "" && servers[k].server == k
  }

  lemma CreditWellNamed(servers: map<string, Endpoint>, o: Observation, lookup: string -> string)
    requires WellNamed(servers)
    ensures WellNamed(Credit(servers, o, lookup))
  {
  }

  // ---------------------------------------------------------------- histories

  /** All that the observations of a history are worth to server k. */
  function WorthTo(os: seq<Observation>, k: string, f: Figure): nat {
    if os == [] then 0 else (if Names(os[0], k) then Worth(os[0], f) else 0) + WorthTo(os[1..], k, f)
  }

  function PlaceThrough(place: Option<string>, k: string, os: seq<Observation>,
                        lookup: string -> string): Option<string>
    decreases |os|
  {
    if os == [] then place else PlaceThrough(PlaceAfter(place, k, os[0], lookup), k, os[1..], lookup)
  }

  lemma {:induction false} HistoryFrom(r: Registry, os: seq<Observation>, lookup: string -> string, k: string,
                                       f: Figure)
    requires |r.errors| == CLASS_COUNT && WellNamed(r.servers) && k != ""
    ensures var after := ObservedAll(r, os, lookup).servers;
            && WellNamed(after)
            && CreditOf(after, k, f) == CreditOf(r.servers, k, f) + WorthTo(os, k, f)
            && PlaceOf(after, k) == PlaceThrough(PlaceOf(r.servers, k), k, os, lookup)
    decreases |os|
  {
    hide Credit, CreditOf, PlaceOf, PlaceAfter, Names, Worth, WellNamed;
    if os != [] {
      CreditNames(r.servers, os[0], lookup, k, f);
      CreditWellNamed(r.servers, os[0], lookup);
      HistoryFrom(Observed(r, os[0], lookup), os[1..], lookup, k, f);
    }
  }

  /** After any history each server has exactly the credit of the observations
      that name it, stands where they put it, and is listed if and only if one
      of them names it. */
  lemma HistoryAttributes(os: seq<Observation>, lookup: string -> string, k: string, f: Figure)
    requires k != ""
    ensures var servers := ObservedAll(Empty(), os, lookup).servers;
            && WellNamed(servers)
            && CreditOf(servers, k, f) == WorthTo(os, k, f)
            && PlaceOf(servers, k) == PlaceThrough(None, k, os, lookup)
            && (k in servers <==> exists i :: 0 <= i < |os| && Names(os[i], k))
  {
    HistoryFrom(Empty(), os, lookup, k, f);
    ListedIff(None, k, os, lookup);
  }

  lemma {:induction false} ListedIff(place: Option<string>, k: string, os: seq<Observation>, lookup: string -> string)
    ensures PlaceThrough(place, k, os, lookup).Some? <==> place.Some? || exists i :: 0 <= i < |os| && Names(os[i], k)
    decreases |os|
  {
    hide Names;
    if os != [] {
      var rest := os[1..];
      ListedIff(PlaceAfter(place, k, os[0], lookup), k, rest, lookup);
      if i :| 0 <= i < |os| && Names(os[i], k) {
        assert i == 0 || (0 <= i - 1 < |rest| && Names(rest[i - 1], k));
      }
      if i :| 0 <= i < |rest| && Names(rest[i], k) {
        assert Names(os[i + 1], k);
      }
    }
  }

  /** The first session of a server that gives or looks up a site settles it,
      until it is re-mapped. */
  lemma {:induction false} PlaceStays(place: string, k: string, os: seq<Observation>, lookup: string -> string)
    requires place != "" && forall i :: 0 <= i < |os| && os[i].SetSite? ==> os[i].server != k || os[i].site == ""
    ensures PlaceThrough(Some(place), k, os, lookup) == Some(place)
    decreases |os|
  {
    if os != [] {
      PlaceStays(place, k, os[1..], lookup);
    }
  }

  // ---------------------------------------------------------------- the global counters

  /** The bytes, operations and failures of one class that a history reports. */
  function BytesIn(os: seq<Observation>): nat {
    if os == [] then 0 else (if os[0].SessionOk? then os[0].bytes else 0) + BytesIn(os[1..])
  }

  function OpsIn(os: seq<Observation>): nat {
    if os == [] then 0 else (if os[0].SessionOk? then os[0].ops else 0) + OpsIn(os[1..])
  }

  function OksIn(os: seq<Observation>): nat {
    if os == [] then 0 else (if os[0].SessionOk? then 1 else 0) + OksIn(os[1..])
  }

  function FailsIn(os: seq<Observation>, cls: ErrorClass): nat {
    if os == [] then 0 else (if os[0].SessionFail? && os[0].cls == cls then 1 else 0) + FailsIn(os[1..], cls)
  }

  lemma {:induction false} CountsFrom(r: Registry, os: seq<Observation>, lookup: string -> string, cls: ErrorClass)
    requires |r.errors| == CLASS_COUNT
    ensures var after := ObservedAll(r, os, lookup);
            && |after.errors| == CLASS_COUNT
            && after.bytes == r.bytes + BytesIn(os) && after.ops == r.ops + OpsIn(os) && after.ok == r.ok + OksIn(os)
            && after.errors[ClassIndex(cls)] == r.errors[ClassIndex(cls)] + FailsIn(os, cls)
    decreases |os|
  {
    hide Credit;
    if os != [] {
      if os[0].SessionFail? {
        IndexesDiffer(os[0].cls, cls);
      }
      CountsFrom(Observed(r, os[0], lookup), os[1..], lookup, cls);
    }
  }

  /** After any history the global counters are what its sessions report, the
      failures class by class. */
  lemma HistoryCounts(os: seq<Observation>, lookup: string -> string, cls: ErrorClass)
    ensures var r := ObservedAll(Empty(), os, lookup);
            && |r.errors| == CLASS_COUNT
            && r.bytes == BytesIn(os) && r.ops == OpsIn(os) && r.ok == OksIn(os)
            && r.errors[ClassIndex(cls)] == FailsIn(os, cls)
  {
    CountsFrom(Empty(), os, lookup, cls);
  }
}
