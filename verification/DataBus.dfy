/** The data bus of a channel: the bursts of a run never meet on it. */
module DataBus {
  import opened Common
  import opened Controllers
  import opened Jedec
  import opened Runs
  import opened Trace
  import RefreshGaps

  /** In every run no two bursts meet on the data bus; with closed pages because a row reopens late enough. */
  lemma RunBusFree(cfg: Config, ops: seq<Op>)
    requires ValidConfig(cfg) && Sane(cfg) && (cfg.closePage ==> Reopens(cfg))
    ensures Run(cfg, ops).Some? && BusFree(cfg, Run(cfg, ops).value.log)
  {
    hide ValidConfig, Run, TraceOk, BusFree, Sane, Reopens;
    TraceSafety(cfg, ops);
    RefreshGaps.RunKinds(cfg, ops);
    BurstsApart(cfg, Run(cfg, ops).value.log);
  }

  /** So it is on the memory of the runtime, with open or closed pages. */
  lemma RuntimeBusFree(closed: bool, ops: seq<Op>)
    ensures var cfg := RefreshGaps.DDR4_3200.(closePage := closed);
      ValidConfig(cfg) && Run(cfg, ops).Some? && BusFree(cfg, Run(cfg, ops).value.log)
  {
    var cfg := RefreshGaps.DDR4_3200.(closePage := closed);
    RefreshGaps.RuntimeValid(closed, RankLevelStaggered);
    assert cfg == RefreshGaps.DDR4_3200.(closePage := closed, refreshPolicy := RankLevelStaggered);
    hide ValidConfig, Run, BusFree;
    RunBusFree(cfg, ops);
  }
}
