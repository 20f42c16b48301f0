/** The memory that the runtime configures, with its own values: refreshes are in time, and there is room
    for reads between them. */
module RuntimeMemory {
  import opened Common
  import opened Timing
  import opened Controllers
  import opened Progress
  import opened Runs
  import LoneRead
  import RefreshGaps
  import Service

  /** No command it uses asks for a delay of more than tRFC. */
  lemma Delays()
    ensures DelaysWithin(RefreshGaps.DDR4_3200, 560)
  {
    var cfg := RefreshGaps.DDR4_3200;
    hide SameBank, OtherBanksSameBankgroup, OtherBankgroupsSameRank, OtherRanks, SameRank;
    forall cmd: Command, b: BankId, e | KindOk(cfg, cmd) && e in Consulted(cfg, cmd, b) ensures e.delay <= 560 {
      DelaysSameBank(cmd.ty);
      DelaysSameGroup(cmd.ty);
      DelaysOtherGroups(cmd.ty);
      DelaysOtherRanks(cmd.ty);
      DelaysSameRank(cmd.ty);
    }
  }

  lemma DelaysSameBank(ty: CommandType)
    requires ty in {Read, Write, Activate, Precharge, Refresh}
    ensures forall e :: e in SameBank(RefreshGaps.DDR4_3200, ty) ==> e.delay <= 560
  {
  }

  lemma DelaysSameGroup(ty: CommandType)
    requires ty in {Read, Write, Activate, Precharge, Refresh}
    ensures forall e :: e in OtherBanksSameBankgroup(RefreshGaps.DDR4_3200, ty) ==> e.delay <= 560
  {
  }

  lemma DelaysOtherGroups(ty: CommandType)
    requires ty in {Read, Write, Activate, Precharge, Refresh}
    ensures forall e :: e in OtherBankgroupsSameRank(RefreshGaps.DDR4_3200, ty) ==> e.delay <= 560
  {
  }

  lemma DelaysOtherRanks(ty: CommandType)
    requires ty in {Read, Write, Activate, Precharge, Refresh}
    ensures forall e :: e in OtherRanks(RefreshGaps.DDR4_3200, ty) ==> e.delay <= 560
  {
  }

  lemma DelaysSameRank(ty: CommandType)
    requires ty in {Read, Write, Activate, Precharge, Refresh}
    ensures forall e :: e in SameRank(RefreshGaps.DDR4_3200, ty) ==> e.delay <= 560
  {
  }

  /** Every refresh is issued within 745 cycles of its insertion, one every 6240, and at most one waits. */
  lemma InTime(ops: seq<Op>)
    ensures var cfg := RefreshGaps.DDR4_3200;
      && ValidConfig(cfg) && RefreshInterval(cfg) == 6240
      && Run(cfg, ops).Some? && Service.AtMostOne(cfg, Run(cfg, ops).value, 745)
  {
    var cfg := RefreshGaps.DDR4_3200;
    Roomy();
    assert RefreshInterval(cfg) == 6240 && ServiceTime(cfg, 560) == 745;
    hide ValidConfig, Run, DelaysWithin, Service.AtMostOne;
    Service.IssuedInTime(cfg, 560, ops);
  }

  /** The memory of the runtime leaves that much room between refreshes. */
  lemma Roomy()
    ensures LoneRead.Roomy(RefreshGaps.DDR4_3200, 560)
  {
    var cfg := RefreshGaps.DDR4_3200;
    RefreshGaps.RuntimeValid(false, RankLevelStaggered);
    assert cfg == cfg.(closePage := false, refreshPolicy := RankLevelStaggered);
    Delays();
    assert RefreshInterval(cfg) == 6240 && ServiceTime(cfg, 560) == 745;
  }
}
