/** Where a whole run loses tokens, in every state it can reach. */
module RunLosses {
  import opened RunConfigs
  import opened Schedulers
  import opened SessionLedger
  import opened SessionLosses
  import opened EngineSpec
  import opened EngineInvariants
  import opened EngineRuns

  /** Whatever may happen to a session next loses tokens exactly in the four
      named branches. */
  lemma LossesInARun(cfg: RunConfig, sys: System, id: nat, h: Handler)
    requires Sane(cfg) && Reachable(cfg, sys) && id < |sys.tracks| && Possible(sys.tracks[id], h)
    requires Lawful(h, Places(sys, id), PaidTo(sys, id))
    ensures var t := sys.tracks[id];
            var before, after := Lost(t, PaidTo(sys, id)), Lost(Advance(t, h).0, PaidAfter(h, PaidTo(sys, id)));
            0 <= before && after == before + AmountLost(t.s, h) && (after > before <==> LosesTokens(t.s, h))
  {
    hide TracksOk, Shape, Ledger, Counts, Layout, Advance, Possible, Lawful, Reachable, Lost, LosesTokens;
    SessionShape(cfg, sys, id);
    LostIs(sys.tracks[id], PaidTo(sys, id));
    TokensLostIff(sys.tracks[id], h, Places(sys, id), PaidTo(sys, id));
  }

  lemma SessionShape(cfg: RunConfig, sys: System, id: nat)
    requires Sane(cfg) && Reachable(cfg, sys) && id < |sys.tracks|
    ensures Shape(sys.tracks[id], Places(sys, id), PaidTo(sys, id)) && Ledger(sys.tracks[id], PaidTo(sys, id))
  {
    hide Shape, Ledger, Counts, Layout, Reachable;
    ReachableInv(cfg, sys);
    assert TrackOk(sys, id);
  }

  /** In every reachable state: once a session is over and nothing is in flight
      for it, its net charge is the reported bytes plus what it lost, so the
      two are equal if and only if it lost nothing. */
  lemma SettledInARun(cfg: RunConfig, sys: System, id: nat)
    requires Sane(cfg) && Reachable(cfg, sys) && id < |sys.tracks|
    requires sys.tracks[id].s.completed && sys.tracks[id].owed.read == 0 && PaidTo(sys, id) == 0
    ensures var t := sys.tracks[id];
            && t.charged - t.refunded == t.s.result.bytesRead + Lost(t, 0)
            && (t.charged - t.refunded == t.s.result.bytesRead <==> Lost(t, 0) == 0)
            && (Lost(t, 0) > 0 ==> t.s.timedOut)
  {
    hide Shape, Ledger, Reachable, Lost, Places, PaidTo;
    SessionShape(cfg, sys, id);
    SettledAccount(sys.tracks[id], Places(sys, id), PaidTo(sys, id));
  }
}
