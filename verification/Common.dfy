/** Vocabulary shared by the DRAM modules: command types, addresses, commands,
    transactions and the configuration values that the modelled code reads. */
module Common {

  datatype CommandType =
    | Read | ReadPrecharge | Write | WritePrecharge
    | Activate | Precharge | RefreshBank | Refresh | SrefEnter | SrefExit

  predicate IsRead(ty: CommandType) { ty == Read || ty == ReadPrecharge }

  predicate IsWrite(ty: CommandType) { ty == Write || ty == WritePrecharge }

  predicate IsReadWrite(ty: CommandType) { IsRead(ty) || IsWrite(ty) }

  predicate IsRefresh(ty: CommandType) { ty == Refresh || ty == RefreshBank }

  predicate IsRankCommand(ty: CommandType) { ty == Refresh || ty == SrefEnter || ty == SrefExit }

  /** Decoded address; a coordinate that a command does not use is -1. */
  datatype Address = Address(channel: int, rank: int, bankgroup: int, bank: int, row: int, column: int)

  /** hexAddr of commands that carry no address: -1 stored in a uint64_t. */
  const NO_ADDR: nat := 0xFFFF_FFFF_FFFF_FFFF

  datatype Command = Command(ty: CommandType, addr: Address, hexAddr: nat)

  /** What a scheduling query answers: a command that may go out now, nothing, or the
      process leaving through AbruptExit. */
  datatype Pick = Abort | Wait | Issue(cmd: Command)

  datatype Transaction = Transaction(addr: nat, isWrite: bool, added: int, complete: int)

  /** Position of a bank inside one channel. */
  datatype BankId = BankId(rank: int, bankgroup: int, bank: int)

  function BankOf(a: Address): BankId { BankId(a.rank, a.bankgroup, a.bank) }

  datatype Protocol = DDR3 | DDR4 | GDDR5 | GDDR5X | GDDR6 | LPDDR | LPDDR3 | LPDDR4 | HBM | HBM2

  datatype RefreshPolicy = RankLevelStaggered | BankLevelStaggered

  datatype Field = Ch | Ra | Bg | Ba | Ro | Co

  datatype Config = Config(
    protocol: Protocol,
    // structure
    channels: int, ranks: int, bankgroups: int, banksPerGroup: int, rows: int, columns: int,
    busWidth: int, BL: int, mapping: seq<Field>,
    // timing parameters, in cycles
    burstCycle: int, AL: int, CL: int, CWL: int,
    tCCD_L: int, tCCD_S: int, tRTRS: int, tRTP: int, tWTR_L: int, tWTR_S: int, tWR: int, tRP: int,
    tRRD_L: int, tRRD_S: int, tRAS: int, tRCD: int, tRFC: int, tCKESR: int, tXS: int, tRFCb: int,
    tREFI: int, tREFIb: int, tFAW: int, tPPD: int, t32AW: int, tRCDRD: int, tRCDWR: int,
    // queueing
    perRankQueues: bool, closePage: bool, unifiedQueue: bool,
    cmdQueueSize: int, transQueueSize: int, refreshPolicy: RefreshPolicy)
  {
    predicate IsGDDR() { protocol == GDDR5 || protocol == GDDR5X || protocol == GDDR6 }
    predicate IsHBM() { protocol == HBM || protocol == HBM2 }
    function Banks(): int { bankgroups * banksPerGroup }
    function RL(): int { AL + CL }
    function WL(): int { AL + CWL }
    function ReadDelay(): int { RL() + burstCycle }
    function WriteDelay(): int { WL() + burstCycle }
    function TRC(): int { tRAS + tRP }
  }

  /** At least one rank, bankgroup and bank. */
  predicate Sized(cfg: Config) { 0 < cfg.ranks && 0 < cfg.bankgroups && 0 < cfg.banksPerGroup }

  predicate ValidBank(cfg: Config, b: BankId) {
    && 0 <= b.rank < cfg.ranks
    && 0 <= b.bankgroup < cfg.bankgroups
    && 0 <= b.bank < cfg.banksPerGroup
  }

  /** The banks a command acts on: one bank, or the whole rank for a rank command. */
  predicate Covers(cfg: Config, c: Command, b: BankId) {
    && ValidBank(cfg, b)
    && if IsRankCommand(c.ty) then b.rank == c.addr.rank else b == BankOf(c.addr)
  }

  function Max(a: int, b: int): int { if a >= b then a else b }
}
