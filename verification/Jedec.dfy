/** What a sound trace means in the terms of the data sheet. */
module Jedec {
  import opened Common
  import opened Timing
  import opened Trace
  import opened Options

  /** Any entry that `first` has for the type of `later` at a bank `later` addresses. */
  lemma Apply(cfg: Config, log: seq<Issued>, i: int, j: int, b: BankId, e: Entry)
    requires Timed(cfg, log) && 0 <= i < j < |log|
    requires Covers(cfg, log[j].cmd, b) && e in Consulted(cfg, log[i].cmd, b) && e.ty == log[j].cmd.ty
    ensures log[j].clk >= log[i].clk + e.delay
  {
    assert Spaced(cfg, log[i], log[j]);
  }

  // ---------------------------------------------------------------- the data sheet

  /** Where a bank lies as seen from the bank that a command addresses. */
  datatype Place = OneBank | OneGroup | OneRank | OtherRank

  function PlaceOf(a: Address, b: BankId): Place {
    if b.rank != a.rank then OtherRank
    else if b.bankgroup != a.bankgroup then OneRank
    else if b.bank != a.bank then OneGroup
    else OneBank
  }

  /** Between two accesses. Inside a bankgroup the long values hold, unless there is only one; data of
      another rank follows after a turn of the bus. */
  function AccessMinimum(cfg: Config, p: Place, fromWrite: bool, toWrite: bool): int {
    var short := p == OneRank || cfg.bankgroups == 1;
    if p == OtherRank then
      (match (fromWrite, toWrite)
       case (false, false) => cfg.burstCycle + cfg.tRTRS
       case (false, true) => cfg.CL + cfg.burstCycle + cfg.tRTRS - cfg.CWL
       case (true, false) => cfg.CWL + cfg.burstCycle + cfg.tRTRS - cfg.CL
       case (true, true) => cfg.burstCycle)
    else if fromWrite == toWrite then Max(cfg.burstCycle, if short then cfg.tCCD_S else cfg.tCCD_L)
    else if toWrite then cfg.CL + cfg.burstCycle - cfg.CWL + cfg.tRTRS
    else cfg.AL + cfg.CWL + cfg.burstCycle + if short then cfg.tWTR_S else cfg.tWTR_L
  }

  /** From opening a row to an access. */
  function OpenToAccess(cfg: Config, toWrite: bool): int {
    if cfg.protocol in {GDDR5, GDDR5X, GDDR6, HBM, HBM2} then (if toWrite then cfg.tRCDWR else cfg.tRCDRD)
    else cfg.tRCD - cfg.AL
  }

  /** From a command on a bank to a row command on the same bank, or from its activation to an access. */
  function RowMinimum(cfg: Config, from: CommandType, to: CommandType): Option<int> {
    match from
    case Activate =>
      if IsReadWrite(to) then Some(OpenToAccess(cfg, IsWrite(to)))
      else if to == Activate then Some(cfg.tRAS + cfg.tRP)
      else if to == Precharge then Some(cfg.tRAS)
      else None
    case Read => if to == Precharge then Some(cfg.AL + cfg.tRTP) else None
    case Write => if to == Precharge then Some(cfg.AL + cfg.CWL + cfg.burstCycle + cfg.tWR) else None
    case Precharge => if to in {Activate, Refresh, RefreshBank, SrefEnter} then Some(cfg.tRP) else None
    case ReadPrecharge =>
      if to == Activate then Some(cfg.AL + cfg.burstCycle + cfg.tRTP + cfg.tRP)
      else if to in {Refresh, RefreshBank, SrefEnter} then Some(cfg.AL + cfg.tRTP + cfg.tRP)
      else None
    case WritePrecharge =>
      if to in {Activate, Refresh, RefreshBank, SrefEnter} then
        Some(cfg.AL + cfg.CWL + cfg.burstCycle + cfg.tWR + cfg.tRP)
      else None
    case _ => None
  }

  /** From a row command on a bank to one on another bank of the rank. */
  function NeighbourMinimum(cfg: Config, p: Place, from: CommandType, to: CommandType): Option<int> {
    match (from, to)
    case (Activate, Activate) => Some(if p == OneGroup && cfg.bankgroups != 1 then cfg.tRRD_L else cfg.tRRD_S)
    case (Activate, RefreshBank) => Some(cfg.tRAS + cfg.tRP)
    case (Precharge, Precharge) =>
      if cfg.protocol in {GDDR5, GDDR5X, GDDR6, LPDDR4} then Some(cfg.tPPD) else None
    case (RefreshBank, Activate) => Some(cfg.tRFC)
    case (RefreshBank, RefreshBank) => Some(cfg.tREFI)
    case _ => None
  }

  /** From a command on a whole rank to a command in it. */
  function RankMinimum(cfg: Config, from: CommandType, to: CommandType): Option<int> {
    match from
    case Refresh => if to in {Activate, Refresh, SrefEnter} then Some(cfg.tRFC) else None
    case SrefEnter => if to == SrefExit then Some(cfg.tCKESR) else None
    case SrefExit => if to in {Activate, Refresh, RefreshBank, SrefEnter} then Some(cfg.tXS) else None
    case _ => None
  }

  /** The least distance from command `first` to a later one of type `to` at bank `b`, if there is one. After
      an access with auto-precharge the bank has to be activated before the next access. */
  function Minimum(cfg: Config, first: Command, to: CommandType, b: BankId): Option<int> {
    var from, p := first.ty, PlaceOf(first.addr, b);
    if IsRankCommand(from) then (if p == OtherRank then None else RankMinimum(cfg, from, to))
    else if IsReadWrite(from) && IsReadWrite(to) then
      (if p == OneBank && from in {ReadPrecharge, WritePrecharge} then None
       else Some(AccessMinimum(cfg, p, IsWrite(from), IsWrite(to))))
    else
      match p
      case OtherRank => None
      case OneBank => RowMinimum(cfg, from, to)
      case _ => NeighbourMinimum(cfg, p, from, to)
  }

  /** The delay tables are the data sheet: they ask for all of it and for nothing else. */
  lemma TablesAreSheet(cfg: Config, first: Command, to: CommandType, b: BankId, d: int)
    ensures Entry(to, d) in Consulted(cfg, first, b) <==> Minimum(cfg, first, to, b) == Some(d)
  {
    hide SameBank, OtherBanksSameBankgroup, OtherBankgroupsSameRank, OtherRanks, SameRank, RowMinimum, NeighbourMinimum,
         RankMinimum, AccessMinimum;
    if IsRankCommand(first.ty) {
      RankTable(cfg, first.ty, to, d);
    } else {
      match PlaceOf(first.addr, b)
      case OneBank => BankTable(cfg, first.ty, to, d);
      case OneGroup => GroupTable(cfg, first.ty, to, d);
      case OneRank => GroupsTable(cfg, first.ty, to, d);
      case OtherRank => RanksTable(cfg, first.ty, to, d);
    }
  }

  lemma RankTable(cfg: Config, from: CommandType, to: CommandType, d: int)
    requires IsRankCommand(from)
    ensures Entry(to, d) in SameRank(cfg, from) <==> RankMinimum(cfg, from, to) == Some(d)
  {
  }

  lemma BankTable(cfg: Config, from: CommandType, to: CommandType, d: int)
    requires !IsRankCommand(from)
    ensures Entry(to, d) in SameBank(cfg, from) <==>
      (if IsReadWrite(from) && IsReadWrite(to) then
         from !in {ReadPrecharge, WritePrecharge} && d == AccessMinimum(cfg, OneBank, IsWrite(from), IsWrite(to))
       else RowMinimum(cfg, from, to) == Some(d))
  {
  }

  lemma GroupTable(cfg: Config, from: CommandType, to: CommandType, d: int)
    requires !IsRankCommand(from)
    ensures Entry(to, d) in OtherBanksSameBankgroup(cfg, from) <==>
      (if IsReadWrite(from) && IsReadWrite(to) then d == AccessMinimum(cfg, OneGroup, IsWrite(from), IsWrite(to))
       else NeighbourMinimum(cfg, OneGroup, from, to) == Some(d))
  {
  }

  lemma GroupsTable(cfg: Config, from: CommandType, to: CommandType, d: int)
    requires !IsRankCommand(from)
    ensures Entry(to, d) in OtherBankgroupsSameRank(cfg, from) <==>
      (if IsReadWrite(from) && IsReadWrite(to) then d == AccessMinimum(cfg, OneRank, IsWrite(from), IsWrite(to))
       else NeighbourMinimum(cfg, OneRank, from, to) == Some(d))
  {
  }

  lemma RanksTable(cfg: Config, from: CommandType, to: CommandType, d: int)
    requires !IsRankCommand(from)
    ensures Entry(to, d) in OtherRanks(cfg, from) <==>
      IsReadWrite(from) && IsReadWrite(to) && d == AccessMinimum(cfg, OtherRank, IsWrite(from), IsWrite(to))
  {
  }

  /** Every minimum of the data sheet holds between any two commands of a sound trace. */
  lemma Minima(cfg: Config, log: seq<Issued>, i: int, j: int, b: BankId)
    requires Timed(cfg, log) && 0 <= i < j < |log| && Covers(cfg, log[j].cmd, b)
    ensures match Minimum(cfg, log[i].cmd, log[j].cmd.ty, b)
      case Some(d) => log[j].clk >= log[i].clk + d
      case None => log[j].clk > log[i].clk
  {
    hide Minimum, Consulted;
    match Minimum(cfg, log[i].cmd, log[j].cmd.ty, b)
    case Some(d) =>
      TablesAreSheet(cfg, log[i].cmd, log[j].cmd.ty, b, d);
      Apply(cfg, log, i, j, b, Entry(log[j].cmd.ty, d));
    case None =>
  }

  // ---------------------------------------------------------------- two accesses

  /** Two accesses of a sound trace keep the distance of their places: tCCD_L and tWTR_L inside a
      bankgroup, tCCD_S and tWTR_S across bankgroups, a burst and the turn of the bus across ranks. After
      an access with auto-precharge the same bank has to be closed and activated in between. */
  lemma AccessSpacing(cfg: Config, log: seq<Issued>, i: int, j: int)
    requires TraceOk(cfg, log) && 0 <= i < j < |log| && IsReadWrite(log[i].cmd.ty) && IsReadWrite(log[j].cmd.ty)
    ensures var from, to := log[i].cmd, log[j].cmd; var p := PlaceOf(from.addr, BankOf(to.addr));
      log[j].clk >= log[i].clk +
        if p != OneBank || from.ty in {Read, Write} then AccessMinimum(cfg, p, IsWrite(from.ty), IsWrite(to.ty))
        else if from.ty == ReadPrecharge then
          cfg.AL + cfg.burstCycle + cfg.tRTP + cfg.tRP + OpenToAccess(cfg, IsWrite(to.ty))
        else cfg.AL + cfg.CWL + cfg.burstCycle + cfg.tWR + cfg.tRP + OpenToAccess(cfg, IsWrite(to.ty))
  {
    var b := BankOf(log[j].cmd.addr);
    assert LegalNext(cfg, log[..i], log[i].cmd) && LegalNext(cfg, log[..j], log[j].cmd);
    hide Legal, LegalNext, ActivationsSpread, OpenToAccess, AccessMinimum;
    assert Covers(cfg, log[j].cmd, b);
    Minima(cfg, log, i, j, b);
    if PlaceOf(log[i].cmd.addr, b) == OneBank && log[i].cmd.ty in {ReadPrecharge, WritePrecharge} {
      OpenNow(cfg, log, j);
      var c := OpenedBetween(cfg, log, i, j, b);
      Minima(cfg, log, i, c, b);
      Minima(cfg, log, c, j, b);
    }
  }

  lemma OpenNow(cfg: Config, log: seq<Issued>, j: int)
    requires Legal(cfg, log) && 0 <= j < |log| && IsReadWrite(log[j].cmd.ty)
    ensures ValidBank(cfg, BankOf(log[j].cmd.addr))
    ensures RowAfter(cfg, log[..j], BankOf(log[j].cmd.addr)) == Some(log[j].cmd.addr.row)
  {
    assert LegalNext(cfg, log[..j], log[j].cmd);
    assert Covers(cfg, log[j].cmd, BankOf(log[j].cmd.addr));
  }

  /** A bank that was closed and is open again was activated in between. */
  lemma {:induction false} OpenedBetween(cfg: Config, log: seq<Issued>, i: int, j: int, b: BankId) returns (c: int)
    requires 0 <= i < j <= |log| && Covers(cfg, log[i].cmd, b)
    requires log[i].cmd.ty in {ReadPrecharge, WritePrecharge, Precharge} && RowAfter(cfg, log[..j], b).Some?
    ensures i < c < j && Covers(cfg, log[c].cmd, b) && log[c].cmd.ty == Activate
  {
    c := j - 1;
    assert log[..j][..j - 1] == log[..j - 1];
    if !(Covers(cfg, log[c].cmd, b) && log[c].cmd.ty == Activate) { c := OpenedBetween(cfg, log, i, j - 1, b); }
  }

  /** The first cycle in which an access has its data on the bus. */
  function BurstStart(cfg: Config, e: Issued): int { e.clk + if IsRead(e.cmd.ty) then cfg.RL() else cfg.WL() }

  ghost predicate BusFree(cfg: Config, log: seq<Issued>) {
    forall i, j :: 0 <= i < j < |log| && IsReadWrite(log[i].cmd.ty) && IsReadWrite(log[j].cmd.ty) ==>
      BurstStart(cfg, log[i]) + cfg.burstCycle <= BurstStart(cfg, log[j])
  }

  /** No parameter is negative, and commands on one bank take time. */
  predicate Sane(cfg: Config) {
    && 0 <= cfg.AL && 0 <= cfg.CL && 0 <= cfg.CWL && 0 <= cfg.burstCycle && 0 <= cfg.tRTRS && 0 <= cfg.tWTR_S
    && 0 <= cfg.tWTR_L && 0 <= cfg.tRTP && 0 <= cfg.tWR && 0 < cfg.tRP && 0 <= cfg.tRAS
    && 0 < OpenToAccess(cfg, false) && 0 < OpenToAccess(cfg, true)
  }

  /** Closing a row by a read and opening the next one takes a write past the data of the read. */
  predicate Reopens(cfg: Config) { cfg.CL <= cfg.AL + cfg.tRTP + cfg.tRP + OpenToAccess(cfg, true) + cfg.CWL }

  predicate ClosesByRead(log: seq<Issued>) { exists i :: 0 <= i < |log| && log[i].cmd.ty == ReadPrecharge }

  /** No two bursts of a sound trace meet on the data bus. */
  lemma BurstsApart(cfg: Config, log: seq<Issued>)
    requires TraceOk(cfg, log) && Sane(cfg) && (ClosesByRead(log) ==> Reopens(cfg))
    ensures BusFree(cfg, log)
  {
    hide TraceOk, OpenToAccess;
    forall i, j | 0 <= i < j < |log| && IsReadWrite(log[i].cmd.ty) && IsReadWrite(log[j].cmd.ty)
        ensures BurstStart(cfg, log[i]) + cfg.burstCycle <= BurstStart(cfg, log[j]) {
      AccessSpacing(cfg, log, i, j);
    }
  }

  /** Activate, read with auto-precharge, activate and write with auto-precharge on one bank, as soon
      after one another as the data sheet allows. */
  function ReopenTrace(cfg: Config): seq<Issued> {
    var a := Address(0, 0, 0, 0, 0, 0);
    var back := cfg.AL + cfg.burstCycle + cfg.tRTP + cfg.tRP;
    var t := Max(OpenToAccess(cfg, false), cfg.tRAS + cfg.tRP - back);
    [Issued(0, Command(Activate, a, 0)), Issued(t, Command(ReadPrecharge, a, 0)),
     Issued(t + back, Command(Activate, a, 0)),
     Issued(t + back + OpenToAccess(cfg, true), Command(WritePrecharge, a, 0))]
  }

  lemma ReopenTimed(cfg: Config)
    requires Sized(cfg) && Sane(cfg)
    ensures Timed(cfg, ReopenTrace(cfg))
  {
    var log := ReopenTrace(cfg);
    forall i, j | 0 <= i < j < |log| ensures log[i].clk < log[j].clk && Spaced(cfg, log[i], log[j]) {
      forall b, e | Covers(cfg, log[j].cmd, b) && e in Consulted(cfg, log[i].cmd, b) && e.ty == log[j].cmd.ty
          ensures log[j].clk >= log[i].clk + e.delay {
        TablesAreSheet(cfg, log[i].cmd, e.ty, b, e.delay);
      }
    }
  }

  lemma ReopenLegal(cfg: Config)
    requires Sized(cfg)
    ensures Legal(cfg, ReopenTrace(cfg))
  {
    hide OpenToAccess;
    var log := ReopenTrace(cfg);
    var b := BankId(0, 0, 0);
    assert log[..1] == [log[0]] && log[..2] == [log[0], log[1]] && log[..3] == [log[0], log[1], log[2]];
    assert log[..2][..1] == log[..1] && log[..3][..2] == log[..2] && log[..1][..0] == [];
    assert RowAfter(cfg, log[..0], b) == None && RowAfter(cfg, log[..1], b) == Some(0);
    assert RowAfter(cfg, log[..2], b) == None && RowAfter(cfg, log[..3], b) == Some(0);
    forall i | 0 <= i < |log| ensures LegalNext(cfg, log[..i], log[i].cmd) {
      assert forall c :: Covers(cfg, log[i].cmd, c) ==> c == b;
    }
  }

  lemma {:induction false} FewActivations(log: seq<Issued>, rank: int)
    ensures |Activations(log, rank)| <= |log|
  {
    if log != [] { FewActivations(log[..|log| - 1], rank); }
  }

  /** No two bursts of any sound trace meet if and only if a row reopens late enough. */
  lemma BusIff(cfg: Config)
    requires Sized(cfg) && Sane(cfg)
    ensures (forall log :: TraceOk(cfg, log) ==> BusFree(cfg, log)) <==> Reopens(cfg)
  {
    if Reopens(cfg) {
      forall log | TraceOk(cfg, log) ensures BusFree(cfg, log) { BurstsApart(cfg, log); }
    } else {
      var log := ReopenTrace(cfg);
      ReopenTimed(cfg);
      ReopenLegal(cfg);
      forall rank | 0 <= rank < cfg.ranks ensures |Activations(log, rank)| <= 4 { FewActivations(log, rank); }
      assert TraceOk(cfg, log);
      assert !BusFree(cfg, log) by { assert IsReadWrite(log[1].cmd.ty) && IsReadWrite(log[3].cmd.ty); }
    }
  }

  // ---------------------------------------------------------------- rows

  /** Activations of two banks of one rank: tRRD_L inside a bankgroup (tRRD_S when there is only
      one), tRRD_S across bankgroups. */
  lemma ActivateSpacing(cfg: Config, log: seq<Issued>, i: int, j: int)
    requires TraceOk(cfg, log) && 0 <= i < j < |log|
    requires log[i].cmd.ty == Activate && log[j].cmd.ty == Activate
    requires log[i].cmd.addr.rank == log[j].cmd.addr.rank && BankOf(log[i].cmd.addr) != BankOf(log[j].cmd.addr)
    ensures log[j].clk >= log[i].clk +
      if log[i].cmd.addr.bankgroup == log[j].cmd.addr.bankgroup && cfg.bankgroups != 1 then cfg.tRRD_L else cfg.tRRD_S
  {
    assert LegalNext(cfg, log[..j], log[j].cmd);
    Minima(cfg, log, i, j, BankOf(log[j].cmd.addr));
  }

  /** A bank that was activated and is closed again was closed by a command in between. */
  lemma {:induction false} ClosedBetween(cfg: Config, log: seq<Issued>, i: int, j: int, b: BankId) returns (c: int)
    requires 0 <= i < j <= |log| && log[i].cmd.ty == Activate && Covers(cfg, log[i].cmd, b)
    requires RowAfter(cfg, log[..j], b) == None
    ensures i < c < j && Covers(cfg, log[c].cmd, b) && log[c].cmd.ty in {ReadPrecharge, WritePrecharge, Precharge}
  {
    c := j - 1;
    assert log[..j][..j - 1] == log[..j - 1];
    if !(Covers(cfg, log[c].cmd, b) && log[c].cmd.ty in {ReadPrecharge, WritePrecharge, Precharge}) {
      c := ClosedBetween(cfg, log, i, j - 1, b);
    }
  }

  /** From activation to refresh no table entry holds on the same bank; the bank has to be closed in
      between, which takes tRC through a precharge, but only the sum of two shorter delays through
      an access with auto-precharge. */
  lemma ActivateToRefresh(cfg: Config, log: seq<Issued>, i: int, j: int, b: BankId)
    requires TraceOk(cfg, log) && 0 <= i < j < |log|
    requires log[i].cmd.ty == Activate && IsRefresh(log[j].cmd.ty)
    requires Covers(cfg, log[i].cmd, b) && Covers(cfg, log[j].cmd, b)
    ensures log[j].clk >= log[i].clk + cfg.tRAS + cfg.tRP
         || log[j].clk >= log[i].clk + OpenToAccess(cfg, false) + cfg.AL + cfg.tRTP + cfg.tRP
         || log[j].clk >= log[i].clk + OpenToAccess(cfg, true) + cfg.AL + cfg.CWL + cfg.burstCycle + cfg.tWR + cfg.tRP
    ensures (forall n :: i < n < j ==> log[n].cmd.ty != ReadPrecharge && log[n].cmd.ty != WritePrecharge)
            ==> log[j].clk >= log[i].clk + cfg.TRC()
  {
    assert LegalNext(cfg, log[..j], log[j].cmd);
    hide LegalNext, ActivationsSpread, AccessMinimum, NeighbourMinimum, OpenToAccess, Spaced;
    var c := ClosedBetween(cfg, log, i, j, b);
    Minima(cfg, log, i, c, b);
    Minima(cfg, log, c, j, b);
  }
}
