/** Command queues of a channel (runtime/DRAMsim3/src/command_queue.cc): one per bank or one per
    rank, visited round robin, with the queues of a refresh in service left out. */
module CommandQueues {
  import opened Common
  import opened Channels
  import opened Options
  import Arith

  datatype CmdQueue = CmdQueue(queues: seq<seq<Command>>, inRef: bool, refIdx: set<int>, queueIdx: int, clk: int)

  function NumQueues(cfg: Config): int {
    if cfg.perRankQueues then cfg.ranks else cfg.Banks() * cfg.ranks
  }

  function QueueIndex(cfg: Config, a: Address): int {
    if cfg.perRankQueues then a.rank else a.rank * cfg.Banks() + a.bankgroup * cfg.banksPerGroup + a.bank
  }

  predicate AllInBanks(cfg: Config, queue: seq<Command>) {
    forall j :: 0 <= j < |queue| ==> ValidBank(cfg, BankOf(queue[j].addr))
  }

  ghost predicate QueuesShaped(cfg: Config, q: CmdQueue) {
    && |q.queues| == NumQueues(cfg) && 0 <= q.queueIdx < NumQueues(cfg)
    && forall i :: 0 <= i < |q.queues| ==> AllInBanks(cfg, q.queues[i])
  }

  /** The queues that a refresh shuts while it is served. */
  function RefIndices(cfg: Config, ref: Command): set<int>
    requires cfg.Banks() != 0
  {
    if ref.ty == Refresh then
      if cfg.perRankQueues then {ref.addr.rank}
      else set i | 0 <= i < NumQueues(cfg) && i / cfg.Banks() == ref.addr.rank
    else {QueueIndex(cfg, ref.addr)}
  }

  function FinishRefresh(cfg: Config, ch: Channel, q: CmdQueue): (CmdQueue, Pick)
    requires Sized(cfg) && Shaped(cfg, ch) && ch.refreshQ != [] && Addressed(cfg, ch.refreshQ[0])
  {
    var ref := ch.refreshQ[0];
    assert cfg.Banks() != 0 by { Arith.MulPos(cfg.bankgroups, cfg.banksPerGroup); }
    var q1 := if q.inRef then q else q.(inRef := true, refIdx := q.refIdx + RefIndices(cfg, ref));
    var r := ReadyCommand(cfg, ch, ref, q.clk);
    if r.Issue? && IsRefresh(r.cmd.ty) then (q1.(inRef := false, refIdx := {}), r) else (q1, r)
  }

  predicate SameBankAs(a: Command, b: Command) { BankOf(a.addr) == BankOf(b.addr) }

  /** May request `i` close its bank: nothing older wants that bank, and the open row is either
      wanted by no one from `i` on or has had four hits. */
  predicate ArbitratePrecharge(ch: Channel, queue: seq<Command>, i: int)
    requires 0 <= i < |queue| && BankOf(queue[i].addr) in ch.banks
  {
    var b := ch.banks[BankOf(queue[i].addr)];
    && (forall k :: 0 <= k < i ==> !SameBankAs(queue[k], queue[i]))
    && ((forall k :: i <= k < |queue| ==> !(SameBankAs(queue[k], queue[i]) && queue[k].addr.row == b.openRow))
        || b.rowHits >= 4)
  }

  /** `r` reads the row and column that `w` names. Ranks are not compared. */
  predicate SameLine(r: Command, w: Command) {
    && IsRead(r.ty) && r.addr.row == w.addr.row && r.addr.column == w.addr.column
    && r.addr.bank == w.addr.bank && r.addr.bankgroup == w.addr.bankgroup
  }

  /** An older read of the same row and column stands before write `i`. */
  predicate HasRWDependency(queue: seq<Command>, i: int)
    requires 0 <= i < |queue|
  {
    exists k :: 0 <= k < i && SameLine(queue[k], queue[i])
  }

  /** What entry `i` of a queue can send out now. */
  function Candidate(cfg: Config, ch: Channel, queue: seq<Command>, i: int, clk: int): Pick
    requires Sized(cfg) && Shaped(cfg, ch) && AllInBanks(cfg, queue) && 0 <= i < |queue|
  {
    var r := ReadyCommand(cfg, ch, queue[i], clk);
    if r.Issue? && r.cmd.ty == Precharge && !ArbitratePrecharge(ch, queue, i) then Wait
    else if r.Issue? && IsWrite(r.cmd.ty) && HasRWDependency(queue, i) then Wait
    else r
  }

  function FirstReady(cfg: Config, ch: Channel, queue: seq<Command>, clk: int, i: nat): Pick
    requires Sized(cfg) && Shaped(cfg, ch) && AllInBanks(cfg, queue) && i <= |queue|
    decreases |queue| - i
  {
    if i == |queue| then Wait
    else
      var r := Candidate(cfg, ch, queue, i, clk);
      if r == Wait then FirstReady(cfg, ch, queue, clk, i + 1) else r
  }

  function NextIndex(cfg: Config, i: int): int { if i + 1 == NumQueues(cfg) then 0 else i + 1 }

  /** Visit the next `n` queues; the last one visited and what it gave. */
  function Search(cfg: Config, ch: Channel, q: CmdQueue, n: nat): (r: (int, Pick))
    requires Sized(cfg) && Shaped(cfg, ch) && QueuesShaped(cfg, q)
    ensures 0 <= r.0 < NumQueues(cfg)
    decreases n
  {
    if n == 0 then (q.queueIdx, Wait)
    else
      var i := NextIndex(cfg, q.queueIdx);
      var r := if q.inRef && i in q.refIdx then Wait else FirstReady(cfg, ch, q.queues[i], q.clk, 0);
      if r == Wait then Search(cfg, ch, q.(queueIdx := i), n - 1) else (i, r)
  }

  /** `queue` without its first entry for the address and type of `cmd`; None where the
      source prints "cannot find cmd!" and exits. */
  function Erase(queue: seq<Command>, cmd: Command): Option<seq<Command>> {
    if queue == [] then None
    else if queue[0].hexAddr == cmd.hexAddr && queue[0].ty == cmd.ty then Some(queue[1..])
    else match Erase(queue[1..], cmd) case None => None case Some(rest) => Some([queue[0]] + rest)
  }

  function GetCommandToIssue(cfg: Config, ch: Channel, q: CmdQueue): (CmdQueue, Pick)
    requires Sized(cfg) && Shaped(cfg, ch) && QueuesShaped(cfg, q)
  {
    var (i, r) := Search(cfg, ch, q, |q.queues|);
    var q1 := q.(queueIdx := i);
    if r.Issue? && IsReadWrite(r.cmd.ty) then
      var k := QueueIndex(cfg, r.cmd.addr);
      if !(0 <= k < |q.queues|) then (q1, Abort)
      else
        match Erase(q.queues[k], r.cmd)
        case None => (q1, Abort)
        case Some(rest) => (q1.(queues := q.queues[k := rest]), r)
    else (q1, r)
  }

  predicate WillAccept(cfg: Config, q: CmdQueue, a: Address)
    requires 0 <= QueueIndex(cfg, a) < |q.queues|
  {
    |q.queues[QueueIndex(cfg, a)]| < cfg.cmdQueueSize
  }

  predicate QueueEmpty(q: CmdQueue) { forall i :: 0 <= i < |q.queues| ==> q.queues[i] == [] }

  function AddCommand(cfg: Config, q: CmdQueue, cmd: Command): CmdQueue
    requires 0 <= QueueIndex(cfg, cmd.addr) < |q.queues|
  {
    var k := QueueIndex(cfg, cmd.addr);
    if |q.queues[k]| < cfg.cmdQueueSize then q.(queues := q.queues[k := q.queues[k] + [cmd]]) else q
  }
}
