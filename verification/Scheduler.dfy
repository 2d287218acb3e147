/** The work generator. The random draws are parameters: nothing below depends
    on their distribution. */
module Schedulers {
  import opened Prelude
  import opened RunConfigs
  import opened SessionSpec
  import opened ReadLists

  /** What the generator draws from. */
  type Unit = x: real | 0.0 <= x < 1.0

  /** The draws one item consumes. */
  datatype Draws = Draws(offset: Unit, vector: Unit)

  datatype WorkItem = WorkItem(session: Options, opBytes: nat)

  function UsesVector(cfg: RunConfig, d: Draws): bool {
    match cfg.pattern
    case Vector => true
    case Mixed => d.vector < cfg.vectorFraction
    case _ => false
  }

  function UsesRandom(cfg: RunConfig, d: Draws): bool {
    match cfg.pattern
    case Random => true
    case Mixed => d.offset < 0.5
    case _ => false
  }

  function Item(cfg: RunConfig, d: Draws): WorkItem {
    WorkItem(
      Options(cfg.chunkSize, 0, cfg.maxBytes, if UsesVector(cfg, d) then Max(1, cfg.vectorChunks) else 0,
              UsesRandom(cfg, d), cfg.sessionTimeout > 0.0),
      OpCharge(cfg, UsesVector(cfg, d)))
  }

  /** The configured operation fits the 32-bit product a session computes. */
  ghost predicate Sane(cfg: RunConfig) {
    cfg.chunkSize >= 1 && cfg.chunkSize * Max(1, cfg.vectorChunks) < WORD32
  }

  /** The charge paid before the first read is the session's own operation
      size, fits the bucket, and bounds every later charge of that session. */
  lemma ItemCharge(cfg: RunConfig, d: Draws)
    requires Sane(cfg)
    ensures var item := Item(cfg, d);
            && Fits(item.session) && item.opBytes == OpBytes(item.session) > 0
            && (cfg.rate > 0 ==> item.opBytes <= BucketCapacity(cfg))
  {
    Scale(1, Max(1, cfg.vectorChunks), cfg.chunkSize);
    var item := Item(cfg, d);
    assert Fits(item.session);
    FitsOpBytes(item.session);
    if cfg.rate > 0 {
      CapacityHoldsEveryCharge(cfg, UsesVector(cfg, d));
    }
  }

  /** Until it has a plan a session is priced at what was paid to admit it. */
  lemma FirstPrice(cfg: RunConfig, d: Draws)
    requires Sane(cfg)
    ensures var item := Item(cfg, d); NextOpBytes(Fresh(item.session, true, item.opBytes)) == item.opBytes > 0
  {
    ItemCharge(cfg, d);
  }

  /** What each pattern means for a session, and what every session of a run shares. */
  lemma ItemFollowsPattern(cfg: RunConfig, d: Draws)
    ensures var o := Item(cfg, d).session;
            && (cfg.pattern.Sequential? ==> !o.randomOffset && o.vectorChunks == 0)
            && (cfg.pattern.Random? ==> o.randomOffset && o.vectorChunks == 0)
            && (cfg.pattern.Vector? ==> !o.randomOffset && o.vectorChunks == Max(1, cfg.vectorChunks))
            && (o.vectorChunks == 0 || o.vectorChunks == Max(1, cfg.vectorChunks))
            && o.chunkSize == cfg.chunkSize && o.offset == 0 && o.maxBytes == cfg.maxBytes
            && (o.deadline <==> cfg.sessionTimeout > 0.0)
  {
  }

  /** A mixed run draws both kinds of offset whatever the other draw, a vector
      session exactly if the fraction allows one, and a plain one likewise. */
  lemma MixedDraws(cfg: RunConfig, random: bool, v: Unit)
    requires cfg.pattern.Mixed?
    ensures exists x: Unit :: Item(cfg, Draws(x, v)).session.randomOffset == random
    ensures (exists d :: Item(cfg, d).session.vectorChunks > 0) <==> cfg.vectorFraction > 0.0
    ensures (exists d :: Item(cfg, d).session.vectorChunks == 0) <==> cfg.vectorFraction < 1.0
  {
    assert Item(cfg, Draws(if random then 0.0 else 0.5, v)).session.randomOffset == random;
    assert cfg.vectorFraction > 0.0 ==> Item(cfg, Draws(0.0, 0.0)).session.vectorChunks > 0;
    var y := if 0.0 <= cfg.vectorFraction < 1.0 then cfg.vectorFraction else 0.0;
    assert cfg.vectorFraction < 1.0 ==> Item(cfg, Draws(0.0, y)).session.vectorChunks == 0;
  }

  /** The largest charge a draw can make. */
  ghost predicate LargestCharge(cfg: RunConfig, n: nat) {
    (exists d :: Item(cfg, d).opBytes == n) && (forall d :: Item(cfg, d).opBytes <= n)
  }

  /** A mixed run that never draws a vector operation. */
  predicate NeverVector(cfg: RunConfig) {
    cfg.pattern.Mixed? && cfg.vectorFraction <= 0.0
  }

  /** The bucket is exactly as large as the largest charge, unless the pattern
      allows vector operations and the fraction never draws one; it then still
      holds a whole vector operation. */
  lemma CapacityIsLargest(cfg: RunConfig)
    requires Sane(cfg) && cfg.rate > 0
    ensures !NeverVector(cfg) ==> LargestCharge(cfg, BucketCapacity(cfg))
    ensures NeverVector(cfg) ==> BucketCapacity(cfg) == cfg.chunkSize * Max(1, cfg.vectorChunks)
    ensures NeverVector(cfg) ==> LargestCharge(cfg, cfg.chunkSize)
  {
    forall d
      ensures Item(cfg, d).opBytes <= BucketCapacity(cfg)
      ensures NeverVector(cfg) ==> Item(cfg, d).opBytes == cfg.chunkSize
    {
      ItemCharge(cfg, d);
    }
    assert !NeverVector(cfg) ==> Item(cfg, Draws(0.0, 0.0)).opBytes == BucketCapacity(cfg);
    assert NeverVector(cfg) ==> Item(cfg, Draws(0.0, 0.0)).opBytes == cfg.chunkSize;
  }

  lemma LargestIsCapacity(cfg: RunConfig, n: nat)
    requires Sane(cfg) && cfg.rate > 0 && LargestCharge(cfg, n) && !NeverVector(cfg)
    ensures n == BucketCapacity(cfg)
  {
    hide Item, BucketCapacity;
    CapacityIsLargest(cfg);
    var d :| Item(cfg, d).opBytes == n;
    var e :| Item(cfg, e).opBytes == BucketCapacity(cfg);
  }

  class Scheduler {
    const cfg: RunConfig
    var seqNo: nat

    constructor (cfg: RunConfig)
      ensures this.cfg == cfg && seqNo == 0
    {
      this.cfg := cfg;
      seqNo := 0;
    }

    method Next(d: Draws) returns (item: WorkItem)
      modifies this
      ensures item == Item(cfg, d)
      ensures cfg.pattern.Sequential? || cfg.pattern.Vector? ==> !item.session.randomOffset
      ensures cfg.pattern.Random? ==> item.session.randomOffset
      ensures cfg.pattern.Sequential? || cfg.pattern.Random? ==> item.session.vectorChunks == 0
      ensures cfg.pattern.Vector? ==> item.session.vectorChunks == Max(1, cfg.vectorChunks)
      ensures seqNo == old(seqNo) + 1
    {
      seqNo := seqNo + 1;
      var session := Options(cfg.chunkSize, 0, cfg.maxBytes, 0, false, cfg.sessionTimeout > 0.0);
      var useVector := false;
      match cfg.pattern {
        case Sequential =>
        case Random =>
          session := session.(randomOffset := true);
        case Vector =>
          useVector := true;
        case Mixed =>
          session := session.(randomOffset := d.offset < 0.5);
          useVector := d.vector < cfg.vectorFraction;
      }
      if useVector {
        session := session.(vectorChunks := Max(1, cfg.vectorChunks));
      }
      item := WorkItem(session, OpCharge(cfg, useVector));
    }
  }
}
