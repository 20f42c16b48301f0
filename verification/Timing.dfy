/** The five command-to-command delay tables built once from the configuration
    (runtime/DRAMsim3/src/timing.cc), and the choice among them that a channel makes
    for each bank when a command goes out. */
module Timing {
  import opened Common

  datatype Entry = Entry(ty: CommandType, delay: int)

  function CcdL(c: Config): int { Max(c.burstCycle, if c.bankgroups == 1 then c.tCCD_S else c.tCCD_L) }
  function CcdS(c: Config): int { Max(c.burstCycle, c.tCCD_S) }
  function ReadToReadO(c: Config): int { c.burstCycle + c.tRTRS }
  function ReadToWrite(c: Config): int { c.RL() + c.burstCycle - c.WL() + c.tRTRS }
  function ReadToWriteO(c: Config): int { c.ReadDelay() + c.burstCycle + c.tRTRS - c.WriteDelay() }
  function ReadToPrecharge(c: Config): int { c.AL + c.tRTP }
  function ReadpToAct(c: Config): int { c.AL + c.burstCycle + c.tRTP + c.tRP }
  function WriteToReadL(c: Config): int { c.WriteDelay() + if c.bankgroups == 1 then c.tWTR_S else c.tWTR_L }
  function WriteToReadS(c: Config): int { c.WriteDelay() + c.tWTR_S }
  function WriteToReadO(c: Config): int { c.WriteDelay() + c.burstCycle + c.tRTRS - c.ReadDelay() }
  function WriteToWriteO(c: Config): int { c.burstCycle }
  function WriteToPrecharge(c: Config): int { c.WL() + c.burstCycle + c.tWR }
  function ReadToActivate(c: Config): int { ReadToPrecharge(c) + c.tRP }
  function WriteToActivate(c: Config): int { WriteToPrecharge(c) + c.tRP }
  function ActToActL(c: Config): int { if c.bankgroups == 1 then c.tRRD_S else c.tRRD_L }
  function ActToRead(c: Config): int { if c.IsGDDR() || c.IsHBM() then c.tRCDRD else c.tRCD - c.AL }
  function ActToWrite(c: Config): int { if c.IsGDDR() || c.IsHBM() then c.tRCDWR else c.tRCD - c.AL }

  /** Column-command delays: `rd` to reads and `wr` to writes, with or without auto-precharge. */
  function Columns(rd: int, wr: int): seq<Entry> {
    [Entry(Read, rd), Entry(Write, wr), Entry(ReadPrecharge, rd), Entry(WritePrecharge, wr)]
  }

  /** Delays to the commands that need a closed bank. */
  function RowClosed(act: int, ref: int): seq<Entry> {
    [Entry(Activate, act), Entry(Refresh, ref), Entry(RefreshBank, ref), Entry(SrefEnter, ref)]
  }

  function SameBank(c: Config, ty: CommandType): seq<Entry> {
    match ty
    case Read => Columns(CcdL(c), ReadToWrite(c)) + [Entry(Precharge, ReadToPrecharge(c))]
    case Write => Columns(WriteToReadL(c), CcdL(c)) + [Entry(Precharge, WriteToPrecharge(c))]
    case ReadPrecharge => RowClosed(ReadpToAct(c), ReadToActivate(c))
    case WritePrecharge => RowClosed(WriteToActivate(c), WriteToActivate(c))
    case Activate =>
      [Entry(Activate, c.TRC())] + Columns(ActToRead(c), ActToWrite(c)) + [Entry(Precharge, c.tRAS)]
    case Precharge => RowClosed(c.tRP, c.tRP)
    case _ => []
  }

  function OtherBanksSameBankgroup(c: Config, ty: CommandType): seq<Entry> {
    match ty
    case Read | ReadPrecharge => Columns(CcdL(c), ReadToWrite(c))
    case Write | WritePrecharge => Columns(WriteToReadL(c), CcdL(c))
    case Activate => [Entry(Activate, ActToActL(c)), Entry(RefreshBank, c.TRC())]
    case Precharge => if c.IsGDDR() || c.protocol == LPDDR4 then [Entry(Precharge, c.tPPD)] else []
    case RefreshBank => [Entry(Activate, c.tRFC), Entry(RefreshBank, c.tREFI)]
    case _ => []
  }

  function OtherBankgroupsSameRank(c: Config, ty: CommandType): seq<Entry> {
    match ty
    case Read | ReadPrecharge => Columns(CcdS(c), ReadToWrite(c))
    case Write | WritePrecharge => Columns(WriteToReadS(c), CcdS(c))
    case Activate => [Entry(Activate, c.tRRD_S), Entry(RefreshBank, c.TRC())]
    case Precharge => if c.IsGDDR() || c.protocol == LPDDR4 then [Entry(Precharge, c.tPPD)] else []
    case RefreshBank => [Entry(Activate, c.tRFC), Entry(RefreshBank, c.tREFI)]
    case _ => []
  }

  function OtherRanks(c: Config, ty: CommandType): seq<Entry> {
    match ty
    case Read | ReadPrecharge => Columns(ReadToReadO(c), ReadToWriteO(c))
    case Write | WritePrecharge => Columns(WriteToReadO(c), WriteToWriteO(c))
    case _ => []
  }

  function SameRank(c: Config, ty: CommandType): seq<Entry> {
    match ty
    case RefreshBank => RowClosed(c.tRFCb, c.tRFCb)
    case Refresh => [Entry(Activate, c.tRFC), Entry(Refresh, c.tRFC), Entry(SrefEnter, c.tRFC)]
    case SrefEnter => [Entry(SrefExit, c.tCKESR)]
    case SrefExit => RowClosed(c.tXS, c.tXS)
    case _ => []
  }

  /** The table consulted for bank `b` when `cmd` is issued. RefreshBank reads `SameBank`,
      which holds nothing for it: its row of `SameRank` is never looked at. */
  function Consulted(c: Config, cmd: Command, b: BankId): seq<Entry> {
    if IsRankCommand(cmd.ty) then
      if b.rank == cmd.addr.rank then SameRank(c, cmd.ty) else []
    else if b.rank != cmd.addr.rank then OtherRanks(c, cmd.ty)
    else if b.bankgroup != cmd.addr.bankgroup then OtherBankgroupsSameRank(c, cmd.ty)
    else if b.bank != cmd.addr.bank then OtherBanksSameBankgroup(c, cmd.ty)
    else SameBank(c, cmd.ty)
  }

  /** The commands a configuration uses: accesses precharge if and only if pages are closed,
      refreshes are of the configured kind, and there is no self-refresh. */
  predicate KindOk(c: Config, cmd: Command) {
    && (IsReadWrite(cmd.ty) ==> (cmd.ty in {ReadPrecharge, WritePrecharge} <==> c.closePage))
    && (IsRefresh(cmd.ty) ==> (cmd.ty == RefreshBank <==> c.refreshPolicy == BankLevelStaggered))
    && cmd.ty != SrefEnter && cmd.ty != SrefExit
  }

  /** No such command asks for a delay longer than `k`. */
  ghost predicate DelaysWithin(c: Config, k: int) {
    forall cmd: Command, b: BankId, e :: KindOk(c, cmd) && e in Consulted(c, cmd, b) ==> e.delay <= k
  }

  /** The longest that a precharge makes another command wait. */
  function PrechargeDelay(c: Config): nat { Max(c.tRP, Max(c.tPPD, 0)) }

  lemma PrechargeTable(c: Config, cmd: Command, b: BankId)
    requires cmd.ty == Precharge
    ensures forall e :: e in Consulted(c, cmd, b) ==> e.delay <= PrechargeDelay(c)
  {
  }

  /** A command to another rank leaves the precharge and refresh timers of this one alone. */
  lemma OtherRankTimers(c: Config, cmd: Command, b: BankId, e: Entry)
    requires b.rank != cmd.addr.rank
    requires e in Consulted(c, cmd, b)
    ensures IsReadWrite(e.ty)
  {
  }
}
