/** One channel's controller (runtime/DRAMsim3/src/controller.cc) with its refresh generator
    (runtime/DRAMsim3/src/refresh.cc), as functions on the controller's state. Self-refresh and
    HBM dual commands are off. Class Controller runs these functions the way the source does. */
module Controllers {
  import opened Common
  import opened Channels
  import opened CommandQueues
  import opened Trace
  import opened Options
  import AddressMap

  datatype RefreshGen = RefreshGen(clk: nat, nextRank: int, nextBg: int, nextBank: int)

  /** What identifies an accepted transaction until its callback. */
  datatype Ticket = Ticket(addr: nat, isWrite: bool, added: int)

  /** The fields of the source, and three histories: the command trace, the transactions accepted
      and the transactions called back. */
  datatype Ctrl = Ctrl(
    clk: nat, ch: Channel, cq: CmdQueue, ref: RefreshGen,
    unified: seq<Transaction>, readQ: seq<Transaction>, writeBuf: seq<Transaction>,
    pendingRd: seq<Transaction>, pendingWr: seq<Transaction>,
    returnQ: seq<Transaction>, draining: int,
    log: seq<Issued>, accepted: seq<Ticket>, returned: multiset<Ticket>)

  function RefreshInterval(cfg: Config): int
    requires 0 < cfg.ranks
  {
    if cfg.refreshPolicy == BankLevelStaggered then cfg.tREFIb else cfg.tREFI / cfg.ranks
  }

  predicate ValidConfig(cfg: Config) {
    && Sized(cfg) && 0 < cfg.channels && 0 < cfg.rows && 0 < cfg.columns
    && AddressMap.ValidMapping(cfg)
    && 0 < RefreshInterval(cfg) && 0 < cfg.cmdQueueSize && 0 < cfg.transQueueSize
  }

  function Ticketed(t: Transaction): Ticket { Ticket(t.addr, t.isWrite, t.added) }

  function Initial(cfg: Config): Ctrl
    requires ValidConfig(cfg)
  {
    Ctrl(0, InitialChannel(cfg), CmdQueue(seq(Max(0, NumQueues(cfg)), _ => []), false, {}, 0, 0),
         RefreshGen(0, 0, 0, 0),
         [], [], [], [], [], [], 0, [], [], multiset{})
  }

  // ---------------------------------------------------------------- refresh generator

  /** The refresh inserted when the counters stand at `g`. */
  function RefreshCommand(cfg: Config, g: RefreshGen): Command {
    if cfg.refreshPolicy == BankLevelStaggered then
      Command(RefreshBank, Address(-1, g.nextRank, g.nextBg, g.nextBank, -1, -1), NO_ADDR)
    else Command(Refresh, Address(-1, g.nextRank, -1, -1, -1, -1), NO_ADDR)
  }

  function IterateNext(cfg: Config, g: RefreshGen): RefreshGen
    requires Sized(cfg)
  {
    if cfg.refreshPolicy == BankLevelStaggered then
      var bg := (g.nextBg + 1) % cfg.bankgroups;
      var bank := if bg == 0 then (g.nextBank + 1) % cfg.banksPerGroup else g.nextBank;
      var rank := if bg == 0 && bank == 0 then (g.nextRank + 1) % cfg.ranks else g.nextRank;
      g.(nextBg := bg, nextBank := bank, nextRank := rank)
    else g.(nextRank := (g.nextRank + 1) % cfg.ranks)
  }

  predicate Inserts(cfg: Config, g: RefreshGen)
    requires ValidConfig(cfg)
  {
    g.clk % RefreshInterval(cfg) == 0 && g.clk > 0
  }

  function RefreshTick(cfg: Config, s: Ctrl): Ctrl
    requires ValidConfig(cfg)
  {
    var g := s.ref;
    if Inserts(cfg, g) then
      s.(ref := IterateNext(cfg, g).(clk := g.clk + 1),
         ch := s.ch.(refreshQ := s.ch.refreshQ + [RefreshCommand(cfg, g)]))
    else s.(ref := g.(clk := g.clk + 1))
  }

  // ---------------------------------------------------------------- transactions in

  predicate WillAcceptTransaction(cfg: Config, s: Ctrl, isWrite: bool) {
    if cfg.unifiedQueue then |s.unified| < cfg.transQueueSize
    else if isWrite then |s.writeBuf| < cfg.transQueueSize
    else |s.readQ| < cfg.transQueueSize
  }

  // The pending multimaps are sequences in order of insertion.

  predicate Has(ts: seq<Transaction>, addr: nat) { exists i :: 0 <= i < |ts| && ts[i].addr == addr }

  function Matching(ts: seq<Transaction>, addr: nat): seq<Transaction> {
    if ts == [] then [] else (if ts[0].addr == addr then [ts[0]] else []) + Matching(ts[1..], addr)
  }

  function Others(ts: seq<Transaction>, addr: nat): seq<Transaction> {
    if ts == [] then [] else (if ts[0].addr == addr then [] else [ts[0]]) + Others(ts[1..], addr)
  }

  function EraseOne(ts: seq<Transaction>, addr: nat): seq<Transaction> {
    if ts == [] then [] else if ts[0].addr == addr then ts[1..] else [ts[0]] + EraseOne(ts[1..], addr)
  }

  /** A transaction enters. A write to an address that already has one waiting merges with it;
      a read of such an address is answered from the write. Either answer is due next cycle. */
  function AddTransaction(cfg: Config, s: Ctrl, addr: nat, isWrite: bool): Ctrl
  {
    var t := Transaction(addr, isWrite, s.clk, 0);
    var s1 := s.(accepted := s.accepted + [Ticketed(t)]);
    var done := t.(complete := s.clk + 1);
    if isWrite then
      var s2 :=
        if Has(s.pendingWr, addr) then s1
        else if cfg.unifiedQueue then s1.(pendingWr := s.pendingWr + [t], unified := s.unified + [t])
        else s1.(pendingWr := s.pendingWr + [t], writeBuf := s.writeBuf + [t]);
      s2.(returnQ := s.returnQ + [done])
    else if Has(s.pendingWr, addr) then s1.(returnQ := s.returnQ + [done])
    else
      var s2 := s1.(pendingRd := s.pendingRd + [t]);
      if Has(s.pendingRd, addr) then s2
      else if cfg.unifiedQueue then s2.(unified := s.unified + [t])
      else s2.(readQ := s.readQ + [t])
  }

  // ---------------------------------------------------------------- transactions to commands

  function TransToCommand(cfg: Config, t: Transaction): Command
    requires AddressMap.ValidMapping(cfg)
  {
    var ty := if cfg.closePage then (if t.isWrite then WritePrecharge else ReadPrecharge)
              else if t.isWrite then Write else Read;
    Command(ty, AddressMap.AddressMapping(cfg, t.addr), t.addr)
  }

  predicate Accepts(cfg: Config, q: CmdQueue, t: Transaction)
    requires AddressMap.ValidMapping(cfg)
  {
    var k := QueueIndex(cfg, TransToCommand(cfg, t).addr);
    0 <= k < |q.queues| && |q.queues[k]| < cfg.cmdQueueSize
  }

  function FirstAccepted(cfg: Config, q: CmdQueue, ts: seq<Transaction>): (n: nat)
    requires AddressMap.ValidMapping(cfg)
    ensures n <= |ts|
    ensures forall i :: 0 <= i < n ==> !Accepts(cfg, q, ts[i])
    ensures n < |ts| ==> Accepts(cfg, q, ts[n])
  {
    if ts == [] || Accepts(cfg, q, ts[0]) then 0 else 1 + FirstAccepted(cfg, q, ts[1..])
  }

  function Removed<T>(s: seq<T>, i: int): seq<T>
    requires 0 <= i < |s|
  {
    s[..i] + s[i + 1..]
  }

  /** Start draining the write buffer when it is full, or holds more than eight writes while
      no command waits. */
  function Draining(cfg: Config, s: Ctrl): int {
    if s.draining == 0 && !cfg.unifiedQueue
       && (|s.writeBuf| >= cfg.transQueueSize || (|s.writeBuf| > 8 && QueueEmpty(s.cq))) then |s.writeBuf|
    else s.draining
  }

  /** At most one transaction becomes a command: the first whose command queue has room. */
  function ScheduleTransaction(cfg: Config, s: Ctrl): Ctrl
    requires AddressMap.ValidMapping(cfg)
  {
    var d := Draining(cfg, s);
    var ts := if cfg.unifiedQueue then s.unified else if d > 0 then s.writeBuf else s.readQ;
    var n := FirstAccepted(cfg, s.cq, ts);
    if n == |ts| then s.(draining := d)
    else
      var t := ts[n];
      if !cfg.unifiedQueue && t.isWrite && Has(s.pendingRd, t.addr) then s.(draining := 0)
      else
        var d1 := if !cfg.unifiedQueue && t.isWrite then d - 1 else d;
        var s1 := s.(draining := d1, cq := AddCommand(cfg, s.cq, TransToCommand(cfg, t)));
        if cfg.unifiedQueue then s1.(unified := Removed(ts, n))
        else if d > 0 then s1.(writeBuf := Removed(ts, n))
        else s1.(readQ := Removed(ts, n))
  }

  // ---------------------------------------------------------------- commands out

  function Completed(ts: seq<Transaction>, clk: int): seq<Transaction> {
    seq(|ts|, i requires 0 <= i < |ts| => ts[i].(complete := clk))
  }

  /** An access finds its address pending. */
  predicate Awaited(s: Ctrl, cmd: Command) {
    (IsRead(cmd.ty) ==> Has(s.pendingRd, cmd.hexAddr)) && (IsWrite(cmd.ty) ==> Has(s.pendingWr, cmd.hexAddr))
  }

  /** A read command answers every pending read of its address; a write command retires the
      pending write. */
  function Retired(cfg: Config, s: Ctrl, cmd: Command): Ctrl {
    if IsRead(cmd.ty) then
      s.(returnQ := s.returnQ + Completed(Matching(s.pendingRd, cmd.hexAddr), s.clk + cfg.ReadDelay()),
         pendingRd := Others(s.pendingRd, cmd.hexAddr))
    else if IsWrite(cmd.ty) then s.(pendingWr := EraseOne(s.pendingWr, cmd.hexAddr))
    else s
  }

  /** The command goes out; None where the source exits. */
  function IssueCommand(cfg: Config, s: Ctrl, cmd: Command): Option<Ctrl>
    requires cmd.ty == Activate ==> 0 <= cmd.addr.rank < |s.ch.fourAw| && cmd.addr.rank < |s.ch.thirtyTwoAw|
  {
    if !Awaited(s, cmd) then None
    else
      match Update(cfg, s.ch, cmd, s.clk)
      case None => None
      case Some(ch) => Some(Retired(cfg, s, cmd).(ch := ch, log := s.log + [Issued(s.clk, cmd)]))
  }

  ghost predicate Shapely(cfg: Config, s: Ctrl) {
    && ValidConfig(cfg) && Shaped(cfg, s.ch) && QueuesShaped(cfg, s.cq)
    && forall i :: 0 <= i < |s.ch.refreshQ| ==> Addressed(cfg, s.ch.refreshQ[i])
  }

  /** The command chosen this cycle: what the refresh in front needs, else what a queue offers. */
  function Choose(cfg: Config, s: Ctrl): (CmdQueue, Pick)
    requires Shapely(cfg, s)
  {
    var (q1, r1) := if s.ch.refreshQ != [] then FinishRefresh(cfg, s.ch, s.cq) else (s.cq, Wait);
    if r1 == Wait then GetCommandToIssue(cfg, s.ch, q1) else (q1, r1)
  }

  /** The command half of a cycle, before scheduling; None where the source exits. */
  function IssueStep(cfg: Config, s: Ctrl): Option<Ctrl>
    requires Shapely(cfg, s)
  {
    var (q, r) := Choose(cfg, s);
    var s1 := s.(cq := q);
    match r
    case Abort => None
    case Wait => Some(s1)
    case Issue(cmd) =>
      if cmd.ty == Activate && !(0 <= cmd.addr.rank < cfg.ranks) then None
      else IssueCommand(cfg, s1, cmd)
  }

  /** One cycle of the controller; None where the source exits. */
  function ClockTick(cfg: Config, s: Ctrl): Option<Ctrl>
    requires ValidConfig(cfg) && Shapely(cfg, RefreshTick(cfg, s))
  {
    match IssueStep(cfg, RefreshTick(cfg, s))
    case None => None
    case Some(s1) =>
      var s2 := ScheduleTransaction(cfg, s1);
      Some(s2.(clk := s.clk + 1, cq := s2.cq.(clk := s2.cq.clk + 1)))
  }

  // ---------------------------------------------------------------- transactions out

  function FirstDone(ts: seq<Transaction>, clk: int): (n: nat)
    ensures n <= |ts|
    ensures forall i :: 0 <= i < n ==> clk < ts[i].complete
    ensures n < |ts| ==> ts[n].complete <= clk
  {
    if ts == [] || ts[0].complete <= clk then 0 else 1 + FirstDone(ts[1..], clk)
  }

  /** The first finished transaction leaves and is called back. */
  function ReturnDoneTrans(s: Ctrl, clk: int): (Ctrl, Option<Transaction>) {
    var n := FirstDone(s.returnQ, clk);
    if n == |s.returnQ| then (s, None)
    else
      var t := s.returnQ[n];
      (s.(returnQ := Removed(s.returnQ, n), returned := s.returned + multiset{Ticketed(t)}), Some(t))
  }
}
