/** State of one DRAM channel (runtime/DRAMsim3/src/channel_state.cc): its banks, the queue of
    refreshes waiting to be served and the activation windows of each rank. The functions say
    what each operation computes; class ChannelState runs them the way the source does. */
module Channels {
  import opened Common
  import opened Timing
  import opened Banks
  import opened Options
  import Arith

  datatype Channel = Channel(
    banks: map<BankId, BankState>,
    refreshQ: seq<Command>,
    fourAw: seq<seq<int>>,
    thirtyTwoAw: seq<seq<int>>)

  ghost predicate Shaped(cfg: Config, ch: Channel) {
    && (forall b :: b in ch.banks <==> ValidBank(cfg, b))
    && |ch.fourAw| == cfg.ranks && |ch.thirtyTwoAw| == cfg.ranks
  }

  /** A command whose coordinates exist in this channel. */
  predicate Addressed(cfg: Config, cmd: Command) {
    if IsRankCommand(cmd.ty) then 0 <= cmd.addr.rank < cfg.ranks else ValidBank(cfg, BankOf(cmd.addr))
  }

  predicate WindowOk(window: seq<int>, clk: int, n: nat) {
    !(window != [] && clk < window[0] && |window| >= n)
  }

  function WindowPush(window: seq<int>, clk: int, span: int): seq<int> {
    (if window != [] && clk >= window[0] then window[1..] else window) + [clk + span]
  }

  predicate ActivationWindowOk(cfg: Config, ch: Channel, rank: int, clk: int)
    requires 0 <= rank < |ch.fourAw| && rank < |ch.thirtyTwoAw|
  {
    && WindowOk(ch.fourAw[rank], clk, 4)
    && (cfg.IsGDDR() ==> WindowOk(ch.thirtyTwoAw[rank], clk, 32))
  }

  /** The banks of a rank in the order the source visits them. */
  function RankBanks(cfg: Config, rank: int): (ids: seq<BankId>)
    requires 0 <= rank < cfg.ranks && 0 < cfg.bankgroups && 0 < cfg.banksPerGroup
    ensures |ids| == cfg.Banks()
    ensures forall i :: 0 <= i < |ids| ==> ValidBank(cfg, ids[i]) && ids[i].rank == rank
    ensures forall b :: ValidBank(cfg, b) && b.rank == rank ==> b in ids
  {
    assert 0 < cfg.Banks() by { Arith.MulPos(cfg.bankgroups, cfg.banksPerGroup); }
    assert forall p :: 0 <= p < cfg.Banks() ==> 0 <= p / cfg.banksPerGroup < cfg.bankgroups by {
      forall p | 0 <= p < cfg.Banks() ensures 0 <= p / cfg.banksPerGroup < cfg.bankgroups {
        Arith.DivBelow(p, cfg.bankgroups, cfg.banksPerGroup);
      }
    }
    var ids := seq(cfg.Banks(), p => BankId(rank, p / cfg.banksPerGroup, p % cfg.banksPerGroup));
    assert forall b :: ValidBank(cfg, b) && b.rank == rank ==> b in ids by {
      forall b | ValidBank(cfg, b) && b.rank == rank ensures b in ids {
        Arith.Pack(b.bankgroup, b.bank, cfg.bankgroups, cfg.banksPerGroup);
        assert ids[b.bankgroup * cfg.banksPerGroup + b.bank] == b;
      }
    }
    ids
  }

  /** A bank at which a rank scan stops: it asks for another command first. */
  predicate Stops(b: BankState, cmd: Command, clk: int) {
    var r := GetReadyCommand(b, cmd, clk);
    r == Abort || (r.Issue? && r.cmd.ty != cmd.ty)
  }

  function FirstStop(ch: Channel, ids: seq<BankId>, cmd: Command, clk: int): (n: nat)
    requires forall i :: 0 <= i < |ids| ==> ids[i] in ch.banks
    ensures n <= |ids|
    ensures forall i :: 0 <= i < n ==> !Stops(ch.banks[ids[i]], cmd, clk)
    ensures n < |ids| ==> Stops(ch.banks[ids[n]], cmd, clk)
  {
    if ids == [] || Stops(ch.banks[ids[0]], cmd, clk) then 0 else 1 + FirstStop(ch, ids[1..], cmd, clk)
  }

  /** A rank request: the first bank that needs something else gets it; the command itself goes
      out when every bank of the rank is ready for it. */
  function RankReady(cfg: Config, ch: Channel, cmd: Command, clk: int): Pick
    requires Sized(cfg) && Shaped(cfg, ch) && 0 <= cmd.addr.rank < cfg.ranks
  {
    var ids := RankBanks(cfg, cmd.addr.rank);
    var n := FirstStop(ch, ids, cmd, clk);
    if n < |ids| then
      var b := ids[n];
      match GetReadyCommand(ch.banks[b], cmd, clk)
      case Issue(c) => Issue(Command(c.ty, Address(-1, b.rank, b.bankgroup, b.bank, -1, -1), cmd.hexAddr))
      case _ => Abort
    else if forall i :: 0 <= i < |ids| ==> GetReadyCommand(ch.banks[ids[i]], cmd, clk).Issue? then Issue(cmd)
    else Wait
  }

  /** The command that brings request `cmd` forward at cycle `clk`. */
  function ReadyCommand(cfg: Config, ch: Channel, cmd: Command, clk: int): Pick
    requires Sized(cfg) && Shaped(cfg, ch) && Addressed(cfg, cmd)
  {
    if IsRankCommand(cmd.ty) then RankReady(cfg, ch, cmd, clk)
    else
      var r := GetReadyCommand(ch.banks[BankOf(cmd.addr)], cmd, clk);
      if r.Issue? && r.cmd.ty == Activate && !ActivationWindowOk(cfg, ch, cmd.addr.rank, clk) then Wait else r
  }

  predicate SameTarget(a: Command, b: Command, wholeRank: bool) {
    a.addr.rank == b.addr.rank && (!wholeRank ==> a.addr.bankgroup == b.addr.bankgroup && a.addr.bank == b.addr.bank)
  }

  /** The waiting queue without its first refresh of the target of `cmd`. */
  function DropRefresh(q: seq<Command>, cmd: Command): seq<Command> {
    if q == [] then []
    else if SameTarget(q[0], cmd, IsRankCommand(cmd.ty)) then q[1..]
    else [q[0]] + DropRefresh(q[1..], cmd)
  }

  function StatesAfter(cfg: Config, ch: Channel, cmd: Command): Option<Channel> {
    if forall b :: b in ch.banks && Covers(cfg, cmd, b) ==> UpdateState(ch.banks[b], cmd).Some? then
      Some(ch.(
        banks := map b | b in ch.banks :: if Covers(cfg, cmd, b) then UpdateState(ch.banks[b], cmd).value
          else ch.banks[b],
        refreshQ := if IsRefresh(cmd.ty) then DropRefresh(ch.refreshQ, cmd) else ch.refreshQ))
    else None
  }

  function TimingAfter(cfg: Config, ch: Channel, cmd: Command, clk: int): Channel
    requires cmd.ty == Activate ==> 0 <= cmd.addr.rank < |ch.fourAw| && cmd.addr.rank < |ch.thirtyTwoAw|
  {
    var r := cmd.addr.rank;
    var act := cmd.ty == Activate;
    ch.(
    banks := map b | b in ch.banks :: ApplyTable(ch.banks[b], Consulted(cfg, cmd, b), clk),
    fourAw := if act then ch.fourAw[r := WindowPush(ch.fourAw[r], clk, cfg.tFAW)] else ch.fourAw,
    thirtyTwoAw := if act && cfg.IsGDDR() then ch.thirtyTwoAw[r := WindowPush(ch.thirtyTwoAw[r], clk, cfg.t32AW)]
                   else ch.thirtyTwoAw)
  }

  /** The channel after `cmd` goes out at `clk`; None where the source exits. */
  function Update(cfg: Config, ch: Channel, cmd: Command, clk: int): Option<Channel>
    requires cmd.ty == Activate ==> 0 <= cmd.addr.rank < |ch.fourAw| && cmd.addr.rank < |ch.thirtyTwoAw|
  {
    match StatesAfter(cfg, ch, cmd)
    case None => None
    case Some(c) => Some(TimingAfter(cfg, c, cmd, clk))
  }

  function InitialChannel(cfg: Config): Channel
    requires 0 <= cfg.ranks
  {
    Channel(map r, g, k | 0 <= r < cfg.ranks && 0 <= g < cfg.bankgroups && 0 <= k < cfg.banksPerGroup
              :: BankId(r, g, k) := FRESH,
            [], seq(cfg.ranks, _ => []), seq(cfg.ranks, _ => []))
  }
}
