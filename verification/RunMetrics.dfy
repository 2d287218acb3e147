/** The registry fed with the reports of a run holds the run's own counters, so
    what is exported obeys the rate ceiling. */
module RunMetrics {
  import opened Prelude
  import opened RunConfigs
  import opened Schedulers
  import opened SessionSpec
  import opened EngineSpec
  import opened EngineInvariants
  import opened EngineRuns
  import opened Effects
  import Metrics

  /** The observation session_done makes of a report: which server, site and
      error class it names is up to XrdCl. */
  predicate Tells(o: Metrics.Observation, r: Report) {
    if r.ok then o.SessionOk? && o.bytes == r.bytesRead && o.ops == r.ops else o.SessionFail?
  }

  /** One observation for each report of the run, in order, with re-mappings of
      sites in between at any time. */
  ghost predicate Fed(sys: System, evs: seq<Event>, os: seq<Metrics.Observation>)
    requires Legal(sys, evs)
    decreases |evs| + |os|
  {
    || (os != [] && os[0].SetSite? && Fed(sys, evs, os[1..]))
    || (evs == [] && os == [])
    || (evs != [] &&
        match Asks(sys, EffectOf(sys, evs[0])).done
        case None => Fed(Step(sys, evs[0]), evs[1..], os)
        case Some(r) => os != [] && Tells(os[0], r) && Fed(Step(sys, evs[0]), evs[1..], os[1..]))
  }

  /** The registry and the run agree. */
  ghost predicate Agrees(r: Metrics.Registry, sys: System) {
    |r.errors| == Metrics.CLASS_COUNT && r.ok == sys.okCount && r.fail == sys.failCount && r.bytes == sys.bytesTotal
  }

  lemma ObservationAgrees(r: Metrics.Registry, sys: System, next: System, o: Metrics.Observation,
                          done: Option<Report>, lookup: string -> string)
    requires Agrees(r, sys) && Reports(sys, next, done)
    ensures done.Some? && Tells(o, done.value) ==> Agrees(Metrics.Observed(r, o, lookup), next)
    ensures done == None ==> Agrees(r, next)
  {
    hide Metrics.Credit;
  }

  lemma RemappingAgrees(r: Metrics.Registry, sys: System, o: Metrics.Observation, lookup: string -> string)
    requires Agrees(r, sys) && o.SetSite?
    ensures Agrees(Metrics.Observed(r, o, lookup), sys)
  {
    hide Metrics.Credit;
  }

  /** The registry follows the run, report by report. */
  lemma {:induction false} RegistryFollows(r: Metrics.Registry, sys: System, evs: seq<Event>,
                                           os: seq<Metrics.Observation>, lookup: string -> string)
    requires Agrees(r, sys) && Legal(sys, evs) && Fed(sys, evs, os)
    ensures Agrees(Metrics.ObservedAll(r, os, lookup), After(sys, evs))
    decreases |evs| + |os|
  {
    hide Known, Enabled, Step, EffectOf, Asks, Moves, Reports, Tells, Metrics.Observed;
    if os != [] && os[0].SetSite? && Fed(sys, evs, os[1..]) {
      RemappingAgrees(r, sys, os[0], lookup);
      RegistryFollows(Metrics.Observed(r, os[0], lookup), sys, evs, os[1..], lookup);
    } else if evs != [] {
      var next := Step(sys, evs[0]);
      StepDoes(sys, evs[0]);
      match Asks(sys, EffectOf(sys, evs[0])).done {
        case None =>
          ObservationAgrees(r, sys, next, Metrics.SetSite("", ""), None, lookup);
          RegistryFollows(r, next, evs[1..], os, lookup);
        case Some(report) =>
          ObservationAgrees(r, sys, next, os[0], Some(report), lookup);
          RegistryFollows(Metrics.Observed(r, os[0], lookup), next, evs[1..], os[1..], lookup);
      }
    }
  }

  /** Every run can be observed so. */
  lemma {:induction false} EveryRunIsFed(sys: System, evs: seq<Event>) returns (os: seq<Metrics.Observation>)
    requires Legal(sys, evs)
    ensures Fed(sys, evs, os)
    decreases |evs|
  {
    hide Known, Enabled, Step, EffectOf, Asks;
    if evs == [] {
      os := [];
    } else {
      var rest := EveryRunIsFed(Step(sys, evs[0]), evs[1..]);
      match Asks(sys, EffectOf(sys, evs[0])).done {
        case None => os := rest;
        case Some(r) =>
          var o := if r.ok then Metrics.SessionOk(r.bytesRead, r.ops, "", "")
                   else Metrics.SessionFail(Metrics.Unknown, "", "");
          os := [o] + rest;
          assert os[1..] == rest;
      }
    }
  }

  lemma UnderTheCeiling(cfg: RunConfig, sys: System, bytes: nat)
    requires Sane(cfg) && cfg.rate > 0 && Reachable(cfg, sys) && bytes == sys.bytesTotal
    ensures bytes as real <= BucketCapacity(cfg) as real + cfg.rate as real * (sys.now - sys.start)
  {
    hide Reachable, Sane, BucketCapacity, SumOf;
    RateCeiling(cfg, sys);
    assert bytes as real <= SumOf(sys.tracks, DeliveredTo) as real;
  }

  /** Whatever servers, sites and error classes the reports of a run name: the
      registry holds the counters of the run, its servers add up to them, and
      the exported bytes are at most one bucketful plus what the rate supplies. */
  lemma ExportedBytes(cfg: RunConfig, start: real, evs: seq<Event>, os: seq<Metrics.Observation>,
                      lookup: string -> string)
    requires Sane(cfg) && cfg.rate > 0 && Legal(Initial(cfg, start), evs) && Fed(Initial(cfg, start), evs, os)
    ensures var r, sys := Metrics.ObservedAll(Metrics.Empty(), os, lookup), After(Initial(cfg, start), evs);
            && Metrics.Conserved(r) && r.ok == sys.okCount && r.fail == sys.failCount
            && sys.admitted == r.ok + r.fail + sys.e.live - sys.observing
            && Metrics.Sum(r.servers, Metrics.Probe(Metrics.Bytes, None)) == r.bytes
            && r.bytes as real <= BucketCapacity(cfg) as real + cfg.rate as real * (sys.now - sys.start)
  {
    hide Legal, After, Fed, Sane, BucketCapacity, Reachable, Metrics.ObservedAll, Metrics.Sum;
    var sys := After(Initial(cfg, start), evs);
    assert Reachable(cfg, sys) by {
      IsReachable(cfg, start, evs);
    }
    Metrics.HistoryConserves(os, lookup);
    RegistryFollows(Metrics.Empty(), Initial(cfg, start), evs, os, lookup);
    UnderTheCeiling(cfg, sys, Metrics.ObservedAll(Metrics.Empty(), os, lookup).bytes);
    SlotAccount(cfg, sys);
  }

  lemma IsReachable(cfg: RunConfig, start: real, evs: seq<Event>)
    requires Legal(Initial(cfg, start), evs)
    ensures Reachable(cfg, After(Initial(cfg, start), evs))
  {
  }
}
