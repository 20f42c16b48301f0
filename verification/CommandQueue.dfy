/** The command queues as the source runs them (runtime/DRAMsim3/src/command_queue.cc): an object
    that looks at its channel and scans its queues with loops. Every method is tied to the function
    of module CommandQueues that says what it computes. */
module QueueMachine {
  import opened Common
  import opened Channels
  import opened CommandQueues
  import opened ChannelMachine
  import opened Options
  import Arith

  lemma EraseHere(queue: seq<Command>, cmd: Command, i: nat)
    requires i <= |queue| && forall k :: 0 <= k < i ==> !(queue[k].hexAddr == cmd.hexAddr && queue[k].ty == cmd.ty)
    ensures i == |queue| ==> Erase(queue, cmd) == None
    ensures i < |queue| && queue[i].hexAddr == cmd.hexAddr && queue[i].ty == cmd.ty
            ==> Erase(queue, cmd) == Some(queue[..i] + queue[i + 1..])
    decreases i
  {
    if i > 0 {
      EraseHere(queue[1..], cmd, i - 1);
      if i < |queue| && queue[i].hexAddr == cmd.hexAddr && queue[i].ty == cmd.ty {
        assert queue[1..][i - 1] == queue[i];
        assert [queue[0]] + (queue[1..][..i - 1] + queue[1..][i..]) == queue[..i] + queue[i + 1..];
      }
    } else if queue != [] {
      assert queue[..0] + queue[1..] == queue[1..];
    }
  }

  class CommandQueue {
    const cfg: Config
    const channelState: ChannelState
    var queues: seq<seq<Command>>
    var inRef: bool
    var refIdx: set<int>
    var queueIdx: int
    var clk: int

    function Abs(): CmdQueue
      reads this
    {
      CmdQueue(queues, inRef, refIdx, queueIdx, clk)
    }

    ghost predicate Whole()
      reads this, channelState
    {
      cfg == channelState.cfg && channelState.Whole() && QueuesShaped(cfg, Abs())
    }

    constructor (config: Config, channel: ChannelState)
      requires Sized(config)
      ensures cfg == config && channelState == channel
      ensures Abs() == CmdQueue(seq(Max(0, NumQueues(cfg)), _ => []), false, {}, 0, 0)
    {
      cfg := config;
      channelState := channel;
      queues := seq(Max(0, NumQueues(config)), _ => []);
      inRef, refIdx, queueIdx, clk := false, {}, 0, 0;
    }

    // -------------------------------------------------------------- queries over one queue

    method ArbitratePrecharge(queue: seq<Command>, i: int) returns (ok: bool)
      requires 0 <= i < |queue| && BankOf(queue[i].addr) in channelState.banks
      ensures ok == CommandQueues.ArbitratePrecharge(channelState.Abs(), queue, i)
    {
      var k := 0;
      while k < i
        invariant 0 <= k <= i
        invariant forall h :: 0 <= h < k ==> !SameBankAs(queue[h], queue[i])
      {
        if SameBankAs(queue[k], queue[i]) {
          return false;
        }
        k := k + 1;
      }
      var bank := channelState.banks[BankOf(queue[i].addr)];
      var pendingRowHits := false;
      while k < |queue| && !pendingRowHits
        invariant i <= k <= |queue|
        invariant pendingRowHits <==>
            exists h :: i <= h < k && SameBankAs(queue[h], queue[i]) && queue[h].addr.row == bank.openRow
      {
        pendingRowHits := queue[k].addr.row == bank.openRow && SameBankAs(queue[k], queue[i]);
        k := k + 1;
      }
      ok := !pendingRowHits || bank.rowHits >= 4;
    }

    method HasRWDependency(queue: seq<Command>, i: int) returns (found: bool)
      requires 0 <= i < |queue|
      ensures found == CommandQueues.HasRWDependency(queue, i)
    {
      var k := 0;
      while k < i
        invariant 0 <= k <= i
        invariant forall h :: 0 <= h < k ==> !SameLine(queue[h], queue[i])
      {
        if SameLine(queue[k], queue[i]) {
          return true;
        }
        k := k + 1;
      }
      return false;
    }

    method GetFirstReadyInQueue(queue: seq<Command>) returns (r: Pick)
      requires Whole() && AllInBanks(cfg, queue)
      ensures r == FirstReady(cfg, channelState.Abs(), queue, clk, 0)
    {
      hide ReadyCommand, CommandQueues.ArbitratePrecharge, CommandQueues.HasRWDependency;
      ghost var ch := channelState.Abs();
      var i := 0;
      while i < |queue|
        invariant 0 <= i <= |queue|
        invariant FirstReady(cfg, ch, queue, clk, 0) == FirstReady(cfg, ch, queue, clk, i)
      {
        var cmd := channelState.GetReadyCommand(queue[i], clk);
        if cmd.Wait? {
          i := i + 1;
          continue;
        }
        if cmd.Issue? && cmd.cmd.ty == Precharge {
          var fair := ArbitratePrecharge(queue, i);
          if !fair {
            i := i + 1;
            continue;
          }
        } else if cmd.Issue? && IsWrite(cmd.cmd.ty) {
          var behindRead := HasRWDependency(queue, i);
          if behindRead {
            i := i + 1;
            continue;
          }
        }
        return cmd;
      }
      return Wait;
    }

    // -------------------------------------------------------------- queries over all queues

    method WillAcceptCommand(a: Address) returns (ok: bool)
      requires 0 <= QueueIndex(cfg, a) < |queues|
      ensures ok == WillAccept(cfg, Abs(), a)
    {
      ok := |queues[QueueIndex(cfg, a)]| < cfg.cmdQueueSize;
    }

    method QueueEmpty() returns (empty: bool)
      ensures empty == CommandQueues.QueueEmpty(Abs())
    {
      var i := 0;
      while i < |queues|
        invariant 0 <= i <= |queues|
        invariant forall k :: 0 <= k < i ==> queues[k] == []
      {
        if queues[i] != [] {
          return false;
        }
        i := i + 1;
      }
      return true;
    }

    // -------------------------------------------------------------- updates

    method AddCommand(cmd: Command)
      requires 0 <= QueueIndex(cfg, cmd.addr) < |queues|
      modifies this`queues
      ensures Abs() == CommandQueues.AddCommand(cfg, old(Abs()), cmd)
    {
      var k := QueueIndex(cfg, cmd.addr);
      if |queues[k]| < cfg.cmdQueueSize {
        queues := queues[k := queues[k] + [cmd]];
      }
    }

    /** Returns false where the source cannot find the command and exits. */
    method EraseRWCommand(cmd: Command) returns (ok: bool)
      requires 0 <= QueueIndex(cfg, cmd.addr) < |queues|
      modifies this`queues
      ensures var k := QueueIndex(cfg, cmd.addr);
        match Erase(old(queues)[k], cmd)
        case None => !ok && queues == old(queues)
        case Some(rest) => ok && queues == old(queues)[k := rest]
    {
      var k := QueueIndex(cfg, cmd.addr);
      var i := 0;
      while i < |queues[k]|
        invariant 0 <= i <= |queues[k]|
        invariant forall h :: 0 <= h < i ==> !(queues[k][h].hexAddr == cmd.hexAddr && queues[k][h].ty == cmd.ty)
      {
        if queues[k][i].hexAddr == cmd.hexAddr && queues[k][i].ty == cmd.ty {
          EraseHere(queues[k], cmd, i);
          queues := queues[k := queues[k][..i] + queues[k][i + 1..]];
          return true;
        }
        i := i + 1;
      }
      EraseHere(queues[k], cmd, i);
      return false;
    }

    method GetNextQueue()
      requires QueuesShaped(cfg, Abs())
      modifies this`queueIdx
      ensures queueIdx == NextIndex(cfg, old(queueIdx)) && 0 <= queueIdx < |queues|
    {
      queueIdx := queueIdx + 1;
      if queueIdx == NumQueues(cfg) {
        queueIdx := 0;
      }
    }

    /** The round-robin scan of GetCommandToIssue, up to the choice. */
    method SearchQueues() returns (r: Pick)
      requires Whole()
      modifies this`queueIdx
      ensures (queueIdx, r) == Search(cfg, channelState.Abs(), old(Abs()), |queues|)
    {
      hide FirstReady;
      ghost var ch, q0 := channelState.Abs(), Abs();
      var i := 0;
      while i < |queues|
        invariant 0 <= i <= |queues|
        invariant QueuesShaped(cfg, Abs()) && Abs() == q0.(queueIdx := queueIdx)
        invariant Search(cfg, ch, q0, |queues|) == Search(cfg, ch, Abs(), |queues| - i)
      {
        ghost var q := Abs();
        GetNextQueue();
        assert Abs() == q.(queueIdx := queueIdx);
        i := i + 1;
        if inRef && queueIdx in refIdx {
          continue;
        }
        r := GetFirstReadyInQueue(queues[queueIdx]);
        if !r.Wait? {
          return;
        }
      }
      return Wait;
    }

    method GetCommandToIssue() returns (r: Pick)
      requires Whole()
      modifies this`queueIdx, this`queues
      ensures (Abs(), r) == CommandQueues.GetCommandToIssue(cfg, channelState.Abs(), old(Abs()))
      ensures |queues| == |old(queues)|
    {
      hide Search, Erase;
      r := SearchQueues();
      if r.Issue? && IsReadWrite(r.cmd.ty) {
        var k := QueueIndex(cfg, r.cmd.addr);
        if !(0 <= k < |queues|) {
          return Abort;
        }
        var found := EraseRWCommand(r.cmd);
        if !found {
          return Abort;
        }
      }
    }

    method GetRefQIndices(ref: Command)
      requires Sized(cfg) && |queues| == NumQueues(cfg) && cfg.Banks() != 0
      modifies this`refIdx
      ensures refIdx == old(refIdx) + RefIndices(cfg, ref)
    {
      if ref.ty == Refresh {
        if !cfg.perRankQueues {
          var i := 0;
          while i < |queues|
            invariant 0 <= i <= |queues|
            invariant refIdx == old(refIdx) + (set k | 0 <= k < i && k / cfg.Banks() == ref.addr.rank)
          {
            if i / cfg.Banks() == ref.addr.rank {
              refIdx := refIdx + {i};
            }
            i := i + 1;
          }
        } else {
          refIdx := refIdx + {ref.addr.rank};
        }
      } else {
        refIdx := refIdx + {QueueIndex(cfg, ref.addr)};
      }
    }

    method FinishRefresh() returns (r: Pick)
      requires Whole() && channelState.refreshQ != [] && Addressed(cfg, channelState.refreshQ[0])
      modifies this`inRef, this`refIdx
      ensures (Abs(), r) == CommandQueues.FinishRefresh(cfg, channelState.Abs(), old(Abs()))
    {
      hide RefIndices, ReadyCommand;
      Arith.MulPos(cfg.bankgroups, cfg.banksPerGroup);
      var ref := channelState.refreshQ[0];
      if !inRef {
        GetRefQIndices(ref);
        inRef := true;
      }
      r := channelState.GetReadyCommand(ref, clk);
      if r.Issue? && IsRefresh(r.cmd.ty) {
        refIdx := {};
        inRef := false;
      }
    }

    method ClockTick()
      modifies this`clk
      ensures Abs() == old(Abs()).(clk := old(clk) + 1)
    {
      clk := clk + 1;
    }
  }
}
