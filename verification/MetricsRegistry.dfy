/** The registry that counts sessions, and the roll-up of servers by site that
    every snapshot makes. */
module MetricsRegistries {
  import opened Prelude
  import opened Metrics
  import opened Attributions

  // ---------------------------------------------------------------- sites

  function SiteFigure(s: Site, f: Figure): nat {
    match f
    case Bytes => s.bytes
    case Oks => s.ok
    case Fails => s.fail
    case Errors(cls) => CountOf(s.errors, ClassName(cls))
  }

  function FigureAt(sites: map<string, Site>, s: string, f: Figure): nat {
    if s in sites then SiteFigure(sites[s], f) else 0
  }

  /** There is one site entry for each site some server belongs to, holding the
      sums over the servers of that site, under its own name. */
  ghost predicate RollsUp(servers: map<string, Endpoint>, sites: map<string, Site>) {
    && (forall s :: s in sites ==> sites[s].site == s)
    && (forall s :: s in sites <==> exists k :: k in servers && SiteKey(servers[k]) == s)
    && (forall s, f :: FigureAt(sites, s, f) == Sum(servers, Probe(f, Some(s))))
  }

  function EmptySite(key: string): Site {
    Site(key, 0, 0, 0, map[])
  }

  ghost predicate Merged(a: map<string, nat>, b: map<string, nat>, c: map<string, nat>) {
    forall name :: CountOf(c, name) == CountOf(a, name) + CountOf(b, name)
  }

  method MergeErrors(into: map<string, nat>, errors: map<string, nat>) returns (merged: map<string, nat>)
    ensures Merged(into, errors, merged)
  {
    merged := into;
    var todo := errors.Keys;
    while todo != {}
      invariant todo <= errors.Keys
      invariant forall name ::
                  CountOf(merged, name) == CountOf(into, name) + if name in todo then 0 else CountOf(errors, name)
      decreases |todo|
    {
      var name :| name in todo;
      merged := merged[name := CountOf(merged, name) + errors[name]];
      todo := todo - {name};
    }
  }

  /** One more server in its site. */
  method AddServer(sites: map<string, Site>, e: Endpoint) returns (next: map<string, Site>)
    ensures next.Keys == sites.Keys + {SiteKey(e)}
    ensures forall s :: s in next ==> next[s].site == if s == SiteKey(e) then s else sites[s].site
    ensures forall s, f :: FigureAt(next, s, f) == FigureAt(sites, s, f) + Reading(e, Probe(f, Some(s)))
  {
    var key := SiteKey(e);
    var site := if key in sites then sites[key] else EmptySite(key);
    var errors := MergeErrors(site.errors, e.errors);
    var grown := Site(key, site.bytes + e.bytes, site.ok + e.ok, site.fail + e.fail, errors);
    next := sites[key := grown];
    forall s, f
      ensures FigureAt(next, s, f) == FigureAt(sites, s, f) + Reading(e, Probe(f, Some(s)))
    {
      if s == key {
        assert SiteFigure(grown, f) == SiteFigure(site, f) + FigureOf(e, f);
      }
    }
  }

  lemma RollsUpMore(done: map<string, Endpoint>, sites: map<string, Site>, k: string, e: Endpoint,
                    next: map<string, Site>)
    requires RollsUp(done, sites) && k !in done && next.Keys == sites.Keys + {SiteKey(e)}
    requires forall s :: s in next ==> next[s].site == if s == SiteKey(e) then s else sites[s].site
    requires forall s, f :: FigureAt(next, s, f) == FigureAt(sites, s, f) + Reading(e, Probe(f, Some(s)))
    ensures RollsUp(done[k := e], next)
  {
    hide Sum, Reading, FigureAt;
    var more := done[k := e];
    forall s
      ensures s in next <==> exists j :: j in more && SiteKey(more[j]) == s
    {
      if s in sites {
        var j :| j in done && SiteKey(done[j]) == s;
        assert j in more && more[j] == done[j];
      }
      if s == SiteKey(e) {
        assert k in more && SiteKey(more[k]) == s;
      }
      if j :| j in more && SiteKey(more[j]) == s {
        assert j == k || (j in done && done[j] == more[j]);
      }
    }
    forall s, f
      ensures FigureAt(next, s, f) == Sum(more, Probe(f, Some(s)))
    {
      SumUpdate(done, Probe(f, Some(s)), k, e);
    }
  }

  /** The roll-up loop of a snapshot. */
  method RollUp(servers: map<string, Endpoint>) returns (sites: map<string, Site>)
    ensures RollsUp(servers, sites)
  {
    hide Sum, Reading, FigureAt, RollsUp;
    sites := map[];
    NothingRollsUp();
    var todo := servers.Keys;
    ghost var done: map<string, Endpoint> := map[];
    while todo != {}
      invariant todo <= servers.Keys
      invariant done == servers - todo
      invariant RollsUp(done, sites)
      decreases |todo|
    {
      var k :| k in todo;
      var next := AddServer(sites, servers[k]);
      RollsUpMore(done, sites, k, servers[k], next);
      sites := next;
      done := done[k := servers[k]];
      todo := todo - {k};
    }
    assert servers - {} == servers;
  }

  lemma NothingRollsUp()
    ensures RollsUp(map[], map[])
  {
  }

  // ---------------------------------------------------------------- conservation over sites

  ghost function SumOver(keys: set<string>, sites: map<string, Site>, f: Figure): nat
    decreases |keys|
  {
    if keys == {} then 0
    else
      var s :| s in keys;
      FigureAt(sites, s, f) + SumOver(keys - {s}, sites, f)
  }

  ghost function SiteSums(keys: set<string>, servers: map<string, Endpoint>, f: Figure): nat
    decreases |keys|
  {
    if keys == {} then 0
    else
      var s :| s in keys;
      Sum(servers, Probe(f, Some(s))) + SiteSums(keys - {s}, servers, f)
  }

  lemma {:induction false} SiteSumsTake(keys: set<string>, servers: map<string, Endpoint>, f: Figure, s: string)
    requires s in keys
    ensures SiteSums(keys, servers, f) == Sum(servers, Probe(f, Some(s))) + SiteSums(keys - {s}, servers, f)
    decreases |keys|
  {
    hide Sum;
    var t :| t in keys
             && SiteSums(keys, servers, f) == Sum(servers, Probe(f, Some(t))) + SiteSums(keys - {t}, servers, f);
    if t != s {
      SiteSumsTake(keys - {t}, servers, f, s);
      SiteSumsTake(keys - {s}, servers, f, t);
      assert keys - {t} - {s} == keys - {s} - {t};
    }
  }

  lemma {:induction false} SumOverIs(keys: set<string>, servers: map<string, Endpoint>, sites: map<string, Site>,
                                     f: Figure)
    requires RollsUp(servers, sites)
    ensures SumOver(keys, sites, f) == SiteSums(keys, servers, f)
    decreases |keys|
  {
    hide Sum, FigureAt;
    if keys != {} {
      var s :| s in keys && SumOver(keys, sites, f) == FigureAt(sites, s, f) + SumOver(keys - {s}, sites, f);
      SiteSumsTake(keys, servers, f, s);
      SumOverIs(keys - {s}, servers, sites, f);
    }
  }

  /** Taking one server away takes its figure out of exactly one site. */
  lemma {:induction false} SiteSumsLess(keys: set<string>, servers: map<string, Endpoint>, f: Figure, k: string)
    requires k in servers
    ensures SiteSums(keys, servers, f)
         == SiteSums(keys, servers - {k}, f) + if SiteKey(servers[k]) in keys then FigureOf(servers[k], f) else 0
    decreases |keys|
  {
    hide Sum, FigureOf, SiteKey;
    if keys != {} {
      var s :| s in keys
               && SiteSums(keys, servers, f) == Sum(servers, Probe(f, Some(s))) + SiteSums(keys - {s}, servers, f);
      SumTake(servers, Probe(f, Some(s)), k);
      SiteSumsTake(keys, servers - {k}, f, s);
      SiteSumsLess(keys - {s}, servers, f, k);
    }
  }

  lemma {:induction false} SiteSumsNone(keys: set<string>, f: Figure)
    ensures SiteSums(keys, map[], f) == 0
    decreases |keys|
  {
    if keys != {} {
      var none: map<string, Endpoint> := map[];
      var s :| s in keys && SiteSums(keys, none, f) == Sum(none, Probe(f, Some(s))) + SiteSums(keys - {s}, none, f);
      assert Sum(none, Probe(f, Some(s))) == 0;
      SiteSumsNone(keys - {s}, f);
    }
  }

  lemma {:induction false} SiteSumsAreAll(keys: set<string>, servers: map<string, Endpoint>, f: Figure)
    requires forall k :: k in servers ==> SiteKey(servers[k]) in keys
    ensures SiteSums(keys, servers, f) == Sum(servers, Probe(f, None))
    decreases |servers|
  {
    hide FigureOf, SiteKey;
    if servers == map[] {
      SiteSumsNone(keys, f);
    } else {
      var k :| k in servers;
      SumTake(servers, Probe(f, None), k);
      SiteSumsLess(keys, servers, f, k);
      SiteSumsAreAll(keys, servers - {k}, f);
    }
  }

  /** The servers that stand at a site; those without one stand at "unmapped". */
  function At(servers: map<string, Endpoint>, s: string): map<string, Endpoint> {
    map k | k in servers && s != "" && (servers[k].site == s || (servers[k].site == "" && s == UNMAPPED_SITE)) ::
      servers[k]
  }

  lemma AtLess(servers: map<string, Endpoint>, s: string, k: string)
    requires k in servers
    ensures k in At(servers, s) <==> s != "" && SiteKey(servers[k]) == s
    ensures k in At(servers, s) ==> At(servers, s)[k] == servers[k]
    ensures At(servers - {k}, s) == At(servers, s) - {k}
  {
  }

  lemma NobodyAt(s: string)
    ensures At(map[], s) == map[]
  {
  }

  lemma NoEmptyKey(e: Endpoint)
    ensures SiteKey(e) != ""
  {
  }

  lemma {:induction false} SumAt(servers: map<string, Endpoint>, s: string, f: Figure)
    ensures Sum(servers, Probe(f, Some(s))) == Sum(At(servers, s), Probe(f, None))
    decreases |servers|
  {
    hide At, SiteKey, FigureOf;
    if servers == map[] {
      NobodyAt(s);
    } else {
      var k :| k in servers;
      SumTake(servers, Probe(f, Some(s)), k);
      SumAt(servers - {k}, s, f);
      AtLess(servers, s, k);
      NoEmptyKey(servers[k]);
      if k in At(servers, s) {
        SumTake(At(servers, s), Probe(f, None), k);
      } else {
        assert At(servers, s) - {k} == At(servers, s);
      }
    }
  }

  /** A site holds exactly what the servers that stand at it have to their
      credit, and is listed exactly if some server stands at it. */
  lemma SitesHoldTheirServers(servers: map<string, Endpoint>, sites: map<string, Site>, s: string, f: Figure)
    requires RollsUp(servers, sites)
    ensures FigureAt(sites, s, f) == Sum(At(servers, s), Probe(f, None))
    ensures s in sites <==> At(servers, s) != map[]
  {
    hide Sum, FigureAt;
    SumAt(servers, s, f);
    if k :| k in servers && SiteKey(servers[k]) == s {
      assert k in At(servers, s);
    }
    if At(servers, s) != map[] {
      var k :| k in At(servers, s);
      assert SiteKey(servers[k]) == s;
    }
  }

  /** Mapped and unmapped sites together add up to the global counters. */
  lemma SitesConserve(r: Registry, sites: map<string, Site>, f: Figure)
    requires Conserved(r) && RollsUp(r.servers, sites) && f != Errors(NoClass)
    ensures SumOver(sites.Keys, sites, f) == Total(r, f)
  {
    hide Sum, FigureAt;
    SumOverIs(sites.Keys, r.servers, sites, f);
    forall k | k in r.servers
      ensures SiteKey(r.servers[k]) in sites.Keys
    {
      assert SiteKey(r.servers[k]) in sites;
    }
    SiteSumsAreAll(sites.Keys, r.servers, f);
  }

  /** Re-mapping a server moves its figures between sites and changes no sum. */
  lemma RemappingOnlyMoves(r: Registry, server: string, site: string, lookup: string -> string, f: Figure,
                           before: map<string, Site>, after: map<string, Site>)
    requires Conserved(r) && RollsUp(r.servers, before) && f != Errors(NoClass)
    requires RollsUp(Observed(r, SetSite(server, site), lookup).servers, after)
    ensures SumOver(after.Keys, after, f) == SumOver(before.Keys, before, f)
  {
    hide Sum, FigureAt, Conserved, Credit, RollsUp;
    ConservedSize(r);
    var next := Observed(r, SetSite(server, site), lookup);
    ObservationConserves(r, SetSite(server, site), lookup);
    SitesConserve(r, before, f);
    SitesConserve(next, after, f);
    assert Total(next, f) == Total(r, f);
  }

  // ---------------------------------------------------------------- the class

  class MetricsRegistry {
    const lookup: string -> string
    const errors: array<nat>
    var bytesReadTotal: nat
    var sessionsOk: nat
    var sessionsFail: nat
    var readOpsTotal: nat
    var byDataServer: map<string, Endpoint>

    ghost function State(): Registry
      reads this, errors
    {
      Registry(bytesReadTotal, sessionsOk, sessionsFail, readOpsTotal, errors[..], byDataServer)
    }

    ghost predicate Valid()
      reads this, errors
    {
      errors.Length == CLASS_COUNT && Conserved(State())
    }

    constructor (lookup: string -> string)
      ensures Valid() && State() == Empty() && this.lookup == lookup && fresh(errors)
    {
      this.lookup := lookup;
      errors := new nat[CLASS_COUNT](_ => 0);
      bytesReadTotal, sessionsOk, sessionsFail, readOpsTotal := 0, 0, 0, 0;
      byDataServer := map[];
      new;
      assert errors[..] == Empty().errors;
      HistoryConserves([], lookup);
    }

    method Attribute(o: Observation)
      requires !o.SetSite?
      modifies this`byDataServer
      ensures byDataServer == Credit(old(byDataServer), o, lookup)
      ensures forall k, f :: k != "" ==>
                CreditOf(byDataServer, k, f)
                == CreditOf(old(byDataServer), k, f) + if Names(o, k) then Worth(o, f) else 0
      ensures forall k :: k != "" ==>
                PlaceOf(byDataServer, k) == PlaceAfter(PlaceOf(old(byDataServer), k), k, o, lookup)
    {
      ghost var was := byDataServer;
      forall k, f | k != ""
        ensures CreditOf(Credit(was, o, lookup), k, f) == CreditOf(was, k, f) + if Names(o, k) then Worth(o, f) else 0
        ensures PlaceOf(Credit(was, o, lookup), k) == PlaceAfter(PlaceOf(was, k), k, o, lookup)
      {
        CreditNames(was, o, lookup, k, f);
      }
      hide CreditOf, PlaceOf, PlaceAfter, Names, Worth;
      var key := if o.server == "" then UNKNOWN_SERVER else o.server;
      var ep := if key in byDataServer then byDataServer[key] else Endpoint(key, "", 0, 0, 0, map[]);
      ep := ep.(server := key);
      if ep.site == "" {
        if o.site != "" {
          ep := ep.(site := o.site);
        } else {
          ep := ep.(site := lookup(key));
        }
      }
      if o.SessionOk? {
        ep := ep.(bytes := ep.bytes + o.bytes, ok := ep.ok + 1);
      } else {
        ep := ep.(fail := ep.fail + 1);
        if o.cls != NoClass {
          ep := ep.(errors := ep.errors[ClassName(o.cls) := CountOf(ep.errors, ClassName(o.cls)) + 1]);
        }
      }
      byDataServer := byDataServer[key := ep];
    }

    method ObserveSessionOk(bytes: nat, ops: nat, server: string, site: string)
      requires Valid()
      modifies this
      ensures Valid() && State() == Observed(old(State()), SessionOk(bytes, ops, server, site), lookup)
    {
      hide Credit, Conserved;
      ObservationConserves(State(), SessionOk(bytes, ops, server, site), lookup);
      bytesReadTotal := bytesReadTotal + bytes;
      sessionsOk := sessionsOk + 1;
      readOpsTotal := readOpsTotal + ops;
      Attribute(SessionOk(bytes, ops, server, site));
    }

    method ObserveSessionFail(cls: ErrorClass, server: string, site: string)
      requires Valid()
      modifies this, errors
      ensures Valid() && State() == Observed(old(State()), SessionFail(cls, server, site), lookup)
    {
      hide Credit, Conserved;
      ObservationConserves(State(), SessionFail(cls, server, site), lookup);
      sessionsFail := sessionsFail + 1;
      ghost var was := errors[..];
      errors[ClassIndex(cls)] := errors[ClassIndex(cls)] + 1;
      assert errors[..] == was[ClassIndex(cls) := was[ClassIndex(cls)] + 1];
      Attribute(SessionFail(cls, server, site));
    }

    method SetCmsSite(server: string, site: string)
      requires Valid()
      modifies this`byDataServer
      ensures Valid() && State() == Observed(old(State()), SetSite(server, site), lookup)
    {
      hide Conserved;
      ObservationConserves(State(), SetSite(server, site), lookup);
      if server == "" || site == "" {
        return;
      }
      if server !in byDataServer {
        return;
      }
      byDataServer := byDataServer[server := byDataServer[server].(site := site)];
    }

    method Snapshot() returns (servers: map<string, Endpoint>, sites: map<string, Site>)
      requires Valid()
      ensures servers == byDataServer && RollsUp(servers, sites)
      ensures forall f :: f != Errors(NoClass) ==> SumOver(sites.Keys, sites, f) == Total(State(), f)
    {
      servers := byDataServer;
      sites := RollUp(servers);
      forall f | f != Errors(NoClass)
        ensures SumOver(sites.Keys, sites, f) == Total(State(), f)
      {
        SitesConserve(State(), sites, f);
      }
    }
  }
}
