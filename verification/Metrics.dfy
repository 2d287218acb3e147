/** Who gets the credit: every session is counted once in the global counters
    and once for the data server that served it, and the servers are rolled up
    by site. Counters do not wrap in this model. */
module Metrics {
  import opened Prelude

  datatype ErrorClass =
    | NoClass | Auth | Timeout | Connection | ServerError | NotFound | ClientError
    | RedirectLoop | Trust | Expired | NoReplicas | Unknown

  const CLASS_COUNT := 12

  function ClassIndex(c: ErrorClass): (i: nat)
    ensures i < CLASS_COUNT
  {
    match c
    case NoClass => 0
    case Auth => 1
    case Timeout => 2
    case Connection => 3
    case ServerError => 4
    case NotFound => 5
    case ClientError => 6
    case RedirectLoop => 7
    case Trust => 8
    case Expired => 9
    case NoReplicas => 10
    case Unknown => 11
  }

  function ClassName(c: ErrorClass): string {
    match c
    case NoClass => "none"
    case Auth => "auth"
    case Timeout => "timeout"
    case Connection => "connection"
    case ServerError => "server_error"
    case NotFound => "not_found"
    case ClientError => "client_error"
    case RedirectLoop => "redirect_loop"
    case Trust => "trust"
    case Expired => "expired"
    case NoReplicas => "no_replicas"
    case Unknown => "unknown"
  }

  /** No two classes share a name, so per-server error counts never mix. */
  lemma NamesDiffer(c: ErrorClass, d: ErrorClass)
    ensures ClassName(c) == ClassName(d) <==> c == d
  {
    var a, b := ClassName(c), ClassName(d);
    assert |a| == |b| && a[0] == b[0] ==> c == d;
  }

  const UNKNOWN_SERVER := "unknown"
  const UNMAPPED_SITE := "unmapped"

  datatype Endpoint = Endpoint(server: string, site: string, bytes: nat, ok: nat, fail: nat, errors: map<string, nat>)

  datatype Site = Site(site: string, bytes: nat, ok: nat, fail: nat, errors: map<string, nat>)

  /** The counters of one run. `lookup` is the configured site map, the empty
      string standing for no site. */
  datatype Registry = Registry(
    bytes: nat, ok: nat, fail: nat, ops: nat, errors: seq<nat>, servers: map<string, Endpoint>)

  /** What is observed of a run, in order. */
  datatype Observation =
    | SessionOk(bytes: nat, ops: nat, server: string, site: string)
    | SessionFail(cls: ErrorClass, server: string, site: string)
    | SetSite(server: string, site: string)

  function CountOf(m: map<string, nat>, name: string): nat {
    if name in m then m[name] else 0
  }

  function Key(server: string): string {
    if server == "" then UNKNOWN_SERVER else server
  }

  function Entry(servers: map<string, Endpoint>, key: string): Endpoint {
    if key in servers then servers[key] else Endpoint(key, "", 0, 0, 0, map[])
  }

  /** The site an endpoint has after a session, if it had none before. */
  function SiteAfter(e: Endpoint, given: string, mapped: string): string {
    if e.site != "" then e.site else if given != "" then given else mapped
  }

  function Credited(e: Endpoint, o: Observation, lookup: string -> string): Endpoint {
    match o
    case SessionOk(bytes, _, _, site) =>
      e.(site := SiteAfter(e, site, lookup(e.server)), bytes := e.bytes + bytes, ok := e.ok + 1)
    case SessionFail(cls, _, site) =>
      e.(site := SiteAfter(e, site, lookup(e.server)), fail := e.fail + 1,
         errors := if cls == NoClass then e.errors
                   else e.errors[ClassName(cls) := CountOf(e.errors, ClassName(cls)) + 1])
    case SetSite(_, site) => e.(site := site)
  }

  function Credit(servers: map<string, Endpoint>, o: Observation, lookup: string -> string): map<string, Endpoint> {
    match o
    case SetSite(server, site) =>
      if server == "" || site == "" || server !in servers then servers
      else servers[server := Credited(servers[server], o, lookup)]
    case _ => servers[Key(o.server) := Credited(Entry(servers, Key(o.server)).(server := Key(o.server)), o, lookup)]
  }

  function Empty(): Registry {
    Registry(0, 0, 0, 0, seq(CLASS_COUNT, _ => 0), map[])
  }

  function Observed(r: Registry, o: Observation, lookup: string -> string): Registry
    requires |r.errors| == CLASS_COUNT
  {
    var servers := Credit(r.servers, o, lookup);
    match o
    case SessionOk(bytes, ops, _, _) =>
      r.(bytes := r.bytes + bytes, ok := r.ok + 1, ops := r.ops + ops, servers := servers)
    case SessionFail(cls, _, _) =>
      r.(fail := r.fail + 1, errors := r.errors[ClassIndex(cls) := r.errors[ClassIndex(cls)] + 1], servers := servers)
    case SetSite(_, _) => r.(servers := servers)
  }

  // ---------------------------------------------------------------- sums over servers

  /** What is added up: one figure, over all servers or those of one site. */
  datatype Figure = Bytes | Oks | Fails | Errors(cls: ErrorClass)
  datatype Probe = Probe(figure: Figure, site: Option<string>)

  function SiteKey(e: Endpoint): string {
    if e.site == "" then UNMAPPED_SITE else e.site
  }

  function FigureOf(e: Endpoint, f: Figure): nat {
    match f
    case Bytes => e.bytes
    case Oks => e.ok
    case Fails => e.fail
    case Errors(cls) => CountOf(e.errors, ClassName(cls))
  }

  function Reading(e: Endpoint, p: Probe): nat {
    if p.site.Some? && p.site.value != SiteKey(e) then 0 else FigureOf(e, p.figure)
  }

  ghost function Sum(m: map<string, Endpoint>, p: Probe): nat
    decreases |m|
  {
    if m == map[] then 0
    else
      var k :| k in m;
      Reading(m[k], p) + Sum(m - {k}, p)
  }

  /** The sum does not depend on the order of summation. */
  lemma {:induction false} SumTake(m: map<string, Endpoint>, p: Probe, k: string)
    requires k in m
    ensures Sum(m, p) == Reading(m[k], p) + Sum(m - {k}, p)
    decreases |m|
  {
    var j :| j in m && Sum(m, p) == Reading(m[j], p) + Sum(m - {j}, p);
    if j != k {
      SumTake(m - {j}, p, k);
      SumTake(m - {k}, p, j);
      assert m - {j} - {k} == m - {k} - {j};
    }
  }

  lemma SumUpdate(m: map<string, Endpoint>, p: Probe, k: string, e: Endpoint)
    ensures Sum(m[k := e], p) + (if k in m then Reading(m[k], p) else 0) == Sum(m, p) + Reading(e, p)
  {
    SumTake(m[k := e], p, k);
    if k in m {
      SumTake(m, p, k);
      assert m[k := e] - {k} == m - {k};
    } else {
      assert m[k := e] - {k} == m;
    }
  }

  // ---------------------------------------------------------------- conservation

  function Total(r: Registry, f: Figure): nat
    requires |r.errors| == CLASS_COUNT
  {
    match f
    case Bytes => r.bytes
    case Oks => r.ok
    case Fails => r.fail
    case Errors(cls) => r.errors[ClassIndex(cls)]
  }

  /** Every session is credited to exactly one server: each figure summed over
      the servers is the global counter. Failures without a class are counted
      globally only. */
  ghost predicate Conserved(r: Registry) {
    && |r.errors| == CLASS_COUNT
    && (forall f: Figure :: f != Errors(NoClass) ==> Sum(r.servers, Probe(f, None)) == Total(r, f))
    && Sum(r.servers, Probe(Errors(NoClass), None)) == 0
    && r.fail == SumSeq(r.errors)
  }

  function SumSeq(ns: seq<nat>): nat {
    if ns == [] then 0 else ns[0] + SumSeq(ns[1..])
  }

  lemma {:induction false} SumSeqUpdate(ns: seq<nat>, i: nat, n: nat)
    requires i < |ns|
    ensures SumSeq(ns[i := n]) + ns[i] == SumSeq(ns) + n
    decreases |ns|
  {
    if i == 0 {
      assert ns[0 := n][1..] == ns[1..];
    } else {
      assert ns[i := n][1..] == ns[1..][i - 1 := n];
      SumSeqUpdate(ns[1..], i - 1, n);
    }
  }

  /** What one observation adds to one figure. */
  function Worth(o: Observation, f: Figure): nat {
    match o
    case SessionOk(bytes, _, _, _) => if f == Bytes then bytes else if f == Oks then 1 else 0
    case SessionFail(cls, _, _) => if f == Fails || (f == Errors(cls) && cls != NoClass) then 1 else 0
    case SetSite(_, _) => 0
  }

  lemma CreditedAdds(e: Endpoint, o: Observation, lookup: string -> string, f: Figure)
    ensures FigureOf(Credited(e, o, lookup), f) == FigureOf(e, f) + Worth(o, f)
  {
    if f.Errors? && o.SessionFail? {
      NamesDiffer(f.cls, o.cls);
    }
  }

  /** One observation adds its worth to the sum over the servers, whichever
      server it names, and re-mapping a server adds nothing. */
  lemma CreditAdds(servers: map<string, Endpoint>, o: Observation, lookup: string -> string, f: Figure)
    ensures Sum(Credit(servers, o, lookup), Probe(f, None)) == Sum(servers, Probe(f, None)) + Worth(o, f)
  {
    hide Sum, Credited, FigureOf;
    var p := Probe(f, None);
    if o.SetSite? {
      if o.server in servers {
        SumUpdate(servers, p, o.server, Credited(servers[o.server], o, lookup));
        CreditedAdds(servers[o.server], o, lookup, f);
      }
    } else {
      var key := Key(o.server);
      var e := Entry(servers, key).(server := key);
      SumUpdate(servers, p, key, Credited(e, o, lookup));
      CreditedAdds(e, o, lookup, f);
      EntryFigure(servers, key, f);
    }
  }

  lemma EntryFigure(servers: map<string, Endpoint>, key: string, f: Figure)
    ensures FigureOf(Entry(servers, key).(server := key), f) == if key in servers then FigureOf(servers[key], f) else 0
  {
  }

  lemma ObservationConserves(r: Registry, o: Observation, lookup: string -> string)
    requires Conserved(r)
    ensures Conserved(Observed(r, o, lookup))
  {
    hide Sum, Credit;
    var next := Observed(r, o, lookup);
    forall f: Figure
      ensures f != Errors(NoClass) ==> Sum(next.servers, Probe(f, None)) == Total(next, f)
      ensures f == Errors(NoClass) ==> Sum(next.servers, Probe(f, None)) == 0
    {
      CreditAdds(r.servers, o, lookup, f);
      if f.Errors? && o.SessionFail? {
        IndexesDiffer(f.cls, o.cls);
      }
    }
    if o.SessionFail? {
      SumSeqUpdate(r.errors, ClassIndex(o.cls), r.errors[ClassIndex(o.cls)] + 1);
    }
  }

  lemma IndexesDiffer(c: ErrorClass, d: ErrorClass)
    ensures ClassIndex(c) == ClassIndex(d) <==> c == d
  {
  }

  function ObservedAll(r: Registry, os: seq<Observation>, lookup: string -> string): (next: Registry)
    requires |r.errors| == CLASS_COUNT
    decreases |os|
  {
    if os == [] then r else ObservedAll(Observed(r, os[0], lookup), os[1..], lookup)
  }

  lemma {:induction false} HistoryConservesFrom(r: Registry, os: seq<Observation>, lookup: string -> string)
    requires Conserved(r)
    ensures Conserved(ObservedAll(r, os, lookup))
    decreases |os|
  {
    hide Conserved;
    if os != [] {
      ObservationConserves(r, os[0], lookup);
      ConservedSize(r);
      HistoryConservesFrom(Observed(r, os[0], lookup), os[1..], lookup);
    }
  }

  lemma ConservedSize(r: Registry)
    requires Conserved(r)
    ensures |r.errors| == CLASS_COUNT
  {
  }

  /** After any history of sessions and re-mappings the servers add up to the
      global counters. */
  lemma HistoryConserves(os: seq<Observation>, lookup: string -> string)
    ensures Conserved(ObservedAll(Empty(), os, lookup))
  {
    ZeroSum(CLASS_COUNT);
    HistoryConservesFrom(Empty(), os, lookup);
  }

  lemma {:induction false} ZeroSum(n: nat)
    ensures SumSeq(seq(n, _ => 0)) == 0
    decreases n
  {
    if n > 0 {
      assert seq(n, _ => 0)[1..] == seq(n - 1, _ => 0);
      ZeroSum(n - 1);
    }
  }
}
