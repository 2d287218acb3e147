/** The engine does what it can: a turn refuses only what the bucket does not
    cover and idles only at the limit. */
module EngineWork {
  import opened TokenBuckets
  import opened RunConfigs
  import opened Schedulers
  import opened SessionSpec
  import opened SessionLedger
  import opened EngineSpec
  import opened EngineInvariants
  import opened EngineSteps
  import opened EngineRuns
  import opened RunEngines
  import opened ReadLists

  /** While live is below the limit and no slot is on its way back, a slot is free. */
  lemma SlotIsFree(cfg: RunConfig, sys: System)
    requires Sane(cfg) && Reachable(cfg, sys) && sys.e.pc.Top? && sys.releasing == 0
    ensures sys.e.live < cfg.maxInflight ==> sys.e.slots < sys.e.max
    ensures sys.e.max == if cfg.maxInflight == 0 then 1 else cfg.maxInflight
  {
    hide Reachable, TracksOk, PriceOk, BucketOk, TokensOk, OrderOk, SumOf;
    ReachableInv(cfg, sys);
  }

  lemma PriceIsPositive(cfg: RunConfig, sys: System, io: Io)
    requires Sane(cfg) && Reachable(cfg, sys) && sys.e.ready != []
    ensures sys.e.ready[0] < |sys.tracks|
    ensures !sys.tracks[sys.e.ready[0]].s.completed ==> NextOpBytes(sys.tracks[sys.e.ready[0]].s) > 0
  {
    hide Reachable, Ledger, Counts, Layout, BucketOk, TokensOk, OrderOk, SlotsOk, Callbacks, Endings;
    ReachableInv(cfg, sys);
    var id := sys.e.ready[0];
    assert multiset(sys.e.ready)[id] > 0;
    OneCustodian(sys, id);
    assert TrackOk(sys, id);
    FitsOpBytes(sys.tracks[id].s.opts);
  }

  /** A turn nobody interferes with continues the session that has waited
      longest exactly if the bucket covers its next read, and puts it back in
      its place otherwise. */
  lemma ContinuesIfItCan(cfg: RunConfig, sys: System, v: View, io: Io) returns (k: nat)
    requires Sane(cfg) && cfg.rate > 0 && Reachable(cfg, sys) && sys.e.pc.Top? && Sees(v, sys, io) && !v.late
    requires sys.e.ready != [] && sys.e.ready[0] < |sys.tracks| && !sys.tracks[sys.e.ready[0]].s.completed
    ensures Known(sys) && Legal(sys, Acts(k, io))
    ensures var (id, e) := (sys.e.ready[0], After(sys, Acts(k, io)).e);
            var n := NextOpBytes(sys.tracks[id].s);
            && (n as real <= Refill(sys.e.bucket, sys.now).tokens ==>
                  e.pc == Paid(id, n) && e.ready == sys.e.ready[1..])
            && (n as real > Refill(sys.e.bucket, sys.now).tokens ==> e.pc == Top && e.ready == sys.e.ready)
  {
    hide Reachable, Inv, Known, Take, Refill, NextOpBytes, InTime;
    ReachableInv(cfg, sys);
    PriceIsPositive(cfg, sys, io);
    BucketIs(sys);
    k := TurnIsRun(sys, v, io);
    var id := sys.e.ready[0];
    GrantedIff(sys.e.bucket, NextOpBytes(sys.tracks[id].s), sys.now);
    assert [id] + sys.e.ready[1..] == sys.e.ready;
  }

  lemma BucketIs(sys: System)
    requires Inv(sys)
    ensures sys.e.bucket.Valid() && sys.e.bucket.rate == sys.cfg.rate
  {
    hide TracksOk, PriceOk, TokensOk, OrderOk, SlotsOk;
  }

  /** With nobody waiting, such a turn starts a session exactly if live is below
      the limit and the bucket covers its first read. */
  lemma AdmitsIfItCan(cfg: RunConfig, sys: System, v: View, io: Io) returns (k: nat)
    requires Sane(cfg) && cfg.rate > 0 && Reachable(cfg, sys) && sys.e.pc.Top? && Sees(v, sys, io) && !v.late
    requires sys.e.ready == [] && sys.releasing == 0
    ensures Known(sys) && Legal(sys, Acts(k, io))
    ensures var (item, e) := (Item(cfg, v.pick), After(sys, Acts(k, io)).e);
            if sys.e.live < cfg.maxInflight && item.opBytes as real <= Refill(sys.e.bucket, sys.now).tokens then
              e.pc == Admitted(item) && e.live == sys.e.live + 1
            else
              e.pc == Top && e.live == sys.e.live && e.slots == sys.e.slots
  {
    hide Reachable, Inv, Known, Take, Refill, Item, InTime, Sane;
    ReachableInv(cfg, sys);
    SlotIsFree(cfg, sys);
    BucketIs(sys);
    ItemIsPositive(cfg, v.pick);
    k := TurnIsRun(sys, v, io);
    GrantedIff(sys.e.bucket, Item(cfg, v.pick).opBytes, sys.now);
  }

  lemma ItemIsPositive(cfg: RunConfig, d: Draws)
    requires Sane(cfg)
    ensures Item(cfg, d).opBytes > 0
  {
    ItemCharge(cfg, d);
  }
}
