/** The controller as the source runs it (runtime/DRAMsim3/src/controller.cc and refresh.cc): objects
    updated in place, tied to the functions of module Controllers. `Valid` is the run invariant, so
    every operation of a live controller keeps it and no exit is reached. */
module ControllerMachine {
  import opened Common
  import opened Channels
  import opened ChannelMachine
  import opened CommandQueues
  import opened QueueMachine
  import opened QueueProofs
  import opened Controllers
  import opened ControllerProofs
  import opened Runs
  import opened RefreshProofs
  import opened Trace
  import opened Options
  import AddressMap

  class Refresh {
    const cfg: Config
    const channelState: ChannelState
    var clk: nat
    var nextRank: int
    var nextBg: int
    var nextBank: int

    function Abs(): RefreshGen
      reads this
    {
      RefreshGen(clk, nextRank, nextBg, nextBank)
    }

    constructor (config: Config, channel: ChannelState)
      ensures cfg == config && channelState == channel && Abs() == RefreshGen(0, 0, 0, 0)
    {
      cfg := config;
      channelState := channel;
      clk, nextRank, nextBg, nextBank := 0, 0, 0, 0;
    }

    method IterateNext()
      requires Sized(cfg)
      modifies this`nextRank, this`nextBg, this`nextBank
      ensures Abs() == Controllers.IterateNext(cfg, old(Abs()))
    {
      if cfg.refreshPolicy == RankLevelStaggered {
        nextRank := (nextRank + 1) % cfg.ranks;
      } else {
        nextBg := (nextBg + 1) % cfg.bankgroups;
        if nextBg == 0 {
          nextBank := (nextBank + 1) % cfg.banksPerGroup;
          if nextBank == 0 {
            nextRank := (nextRank + 1) % cfg.ranks;
          }
        }
      }
    }

    method InsertRefresh()
      requires Sized(cfg)
      modifies this`nextRank, this`nextBg, this`nextBank, channelState`refreshQ
      ensures Abs() == Controllers.IterateNext(cfg, old(Abs()))
      ensures channelState.refreshQ == old(channelState.refreshQ) + [RefreshCommand(cfg, old(Abs()))]
    {
      var a := if cfg.refreshPolicy == RankLevelStaggered then Address(-1, nextRank, -1, -1, -1, -1)
               else Address(-1, nextRank, nextBg, nextBank, -1, -1);
      var ty := if cfg.refreshPolicy == RankLevelStaggered then CommandType.Refresh else RefreshBank;
      channelState.refreshQ := channelState.refreshQ + [Command(ty, a, NO_ADDR)];
      IterateNext();
    }

    method ClockTick()
      requires ValidConfig(cfg)
      modifies this, channelState`refreshQ
      ensures var g := old(Abs());
        if Inserts(cfg, g) then
          && Abs() == Controllers.IterateNext(cfg, g).(clk := g.clk + 1)
          && channelState.refreshQ == old(channelState.refreshQ) + [RefreshCommand(cfg, g)]
        else Abs() == g.(clk := g.clk + 1) && channelState.refreshQ == old(channelState.refreshQ)
    {
      if clk % RefreshInterval(cfg) == 0 && clk > 0 {
        InsertRefresh();
      }
      clk := clk + 1;
    }
  }

  // ---------------------------------------------------------------- pending multimaps

  /** Taking out the first match shortens the matches by one and leaves the others alone. */
  lemma {:induction false} TakeMatch(ts: seq<Transaction>, addr: nat)
    requires Matching(ts, addr) != []
    ensures Matching(ts, addr) == [Matching(ts, addr)[0]] + Matching(EraseOne(ts, addr), addr)
    ensures Others(EraseOne(ts, addr), addr) == Others(ts, addr)
  {
    if ts[0].addr != addr {
      TakeMatch(ts[1..], addr);
      SkipOne(ts[0], EraseOne(ts[1..], addr), addr);
    }
  }

  lemma SkipOne(t: Transaction, ts: seq<Transaction>, addr: nat)
    requires t.addr != addr
    ensures Matching([t] + ts, addr) == Matching(ts, addr) && Others([t] + ts, addr) == [t] + Others(ts, addr)
  {
    assert ([t] + ts)[1..] == ts;
  }

  lemma {:induction false} NoMatch(ts: seq<Transaction>, addr: nat)
    ensures Matching(ts, addr) == [] ==> Others(ts, addr) == ts
    ensures Matching(ts, addr) == [] <==> !Has(ts, addr)
  {
    if ts != [] {
      NoMatch(ts[1..], addr);
      if ts[0].addr == addr {
        assert Has(ts, addr);
      } else if Has(ts[1..], addr) {
        var i :| 0 <= i < |ts[1..]| && ts[1..][i].addr == addr;
        assert ts[i + 1].addr == addr;
      }
    }
  }

  /** What becomes of transaction `i` of the queue `ts` that is being served. */
  function Hand(cfg: Config, s: Ctrl, ts: seq<Transaction>, i: int, fromWrites: bool): Ctrl
    requires AddressMap.ValidMapping(cfg) && 0 <= i < |ts|
    requires 0 <= QueueIndex(cfg, TransToCommand(cfg, ts[i]).addr) < |s.cq.queues|
  {
    var t := ts[i];
    if !cfg.unifiedQueue && t.isWrite && Has(s.pendingRd, t.addr) then s.(draining := 0)
    else
      var s1 := s.(draining := if !cfg.unifiedQueue && t.isWrite then s.draining - 1 else s.draining,
                   cq := AddCommand(cfg, s.cq, TransToCommand(cfg, t)));
      if cfg.unifiedQueue then s1.(unified := Removed(ts, i))
      else if fromWrites then s1.(writeBuf := Removed(ts, i))
      else s1.(readQ := Removed(ts, i))
  }

  lemma ScheduleIs(cfg: Config, s: Ctrl)
    requires AddressMap.ValidMapping(cfg)
    ensures var d := Draining(cfg, s);
      var ts := if cfg.unifiedQueue then s.unified else if d > 0 then s.writeBuf else s.readQ;
      var n := FirstAccepted(cfg, s.cq, ts);
      Controllers.ScheduleTransaction(cfg, s) ==
        if n == |ts| then s.(draining := d) else Hand(cfg, s.(draining := d), ts, n, d > 0)
  {
    hide AddressMap.ValidMapping, TransToCommand, QueueIndex, AddCommand, Has, Draining;
  }

  class Controller {
    const cfg: Config
    const channelState: ChannelState
    const cmdQueue: CommandQueue
    const refresh: Refresh
    var clk: nat
    var unified: seq<Transaction>
    var readQ: seq<Transaction>
    var writeBuf: seq<Transaction>
    var pendingRd: seq<Transaction>
    var pendingWr: seq<Transaction>
    var returnQ: seq<Transaction>
    var draining: int
    ghost var log: seq<Issued>
    ghost var accepted: seq<Ticket>
    ghost var returned: multiset<Ticket>

    ghost predicate Linked() {
      && channelState.cfg == cfg && cmdQueue.cfg == cfg && refresh.cfg == cfg
      && cmdQueue.channelState == channelState && refresh.channelState == channelState
    }

    ghost function Abs(): Ctrl
      reads this, channelState, cmdQueue, refresh
    {
      Ctrl(clk, channelState.Abs(), cmdQueue.Abs(), refresh.Abs(), unified, readQ, writeBuf, pendingRd, pendingWr,
           returnQ, draining, log, accepted, returned)
    }

    ghost predicate Valid()
      reads this, channelState, cmdQueue, refresh
    {
      Linked() && Inv(cfg, Abs())
    }

    constructor (config: Config)
      requires ValidConfig(config)
      ensures Valid() && cfg == config && Abs() == Initial(config)
      ensures fresh(channelState) && fresh(cmdQueue) && fresh(refresh)
    {
      hide Inv, InitialChannel, AddressMap.ValidMapping, RefreshInterval, NumQueues;
      cfg := config;
      var ch := new ChannelState(config);
      var cq := new CommandQueue(config, ch);
      var re := new Refresh(config, ch);
      channelState, cmdQueue, refresh := ch, cq, re;
      clk, draining := 0, 0;
      unified, readQ, writeBuf, pendingRd, pendingWr, returnQ := [], [], [], [], [], [];
      log, accepted, returned := [], [], multiset{};
      InitialInv(config);
    }

    /** A configuration's queue size is the capacity reserved for the transaction queues. */
    method WillAcceptTransaction(isWrite: bool) returns (ok: bool)
      ensures ok == Controllers.WillAcceptTransaction(cfg, Abs(), isWrite)
    {
      if cfg.unifiedQueue {
        ok := |unified| < cfg.transQueueSize;
      } else if !isWrite {
        ok := |readQ| < cfg.transQueueSize;
      } else {
        ok := |writeBuf| < cfg.transQueueSize;
      }
    }

    method EnterWrite(addr: nat)
      modifies this
      ensures Abs() == Controllers.AddTransaction(cfg, old(Abs()), addr, true)
    {
      hide Has, Ticketed;
      var t := Transaction(addr, true, clk, 0);
      if !Has(pendingWr, addr) {
        pendingWr := pendingWr + [t];
        if cfg.unifiedQueue {
          unified := unified + [t];
        } else {
          writeBuf := writeBuf + [t];
        }
      }
      returnQ := returnQ + [t.(complete := clk + 1)];
      accepted := accepted + [Ticketed(t)];
    }

    method EnterRead(addr: nat)
      modifies this
      ensures Abs() == Controllers.AddTransaction(cfg, old(Abs()), addr, false)
    {
      hide Has, Ticketed;
      var t := Transaction(addr, false, clk, 0);
      if Has(pendingWr, addr) {
        returnQ := returnQ + [t.(complete := clk + 1)];
      } else {
        if !Has(pendingRd, addr) {
          if cfg.unifiedQueue {
            unified := unified + [t];
          } else {
            readQ := readQ + [t];
          }
        }
        pendingRd := pendingRd + [t];
      }
      accepted := accepted + [Ticketed(t)];
    }

    /** Adds the transaction if there is room, as the memory system's AddTransaction does. */
    method AddTransaction(addr: nat, isWrite: bool) returns (ok: bool)
      requires Valid()
      modifies this
      ensures Valid() && ok == Controllers.WillAcceptTransaction(cfg, old(Abs()), isWrite)
      ensures Step(cfg, old(Abs()), Add(addr, isWrite)) == Some(Abs())
    {
      hide Core, InOrder, ValidConfig, Controllers.AddTransaction, Controllers.WillAcceptTransaction;
      OtherInv(cfg, Abs(), Add(addr, isWrite));
      ok := WillAcceptTransaction(isWrite);
      if ok {
        if isWrite {
          EnterWrite(addr);
        } else {
          EnterRead(addr);
        }
      }
    }

    /** Takes out the first finished transaction, if any. */
    method ReturnDoneTrans() returns (t: Option<Transaction>)
      requires Valid()
      modifies this`returnQ, this`returned
      ensures Valid() && Step(cfg, old(Abs()), Return) == Some(Abs())
      ensures t == Controllers.ReturnDoneTrans(old(Abs()), old(clk)).1
    {
      hide Core, InOrder, ValidConfig;
      OtherInv(cfg, Abs(), Return);
      var i := 0;
      while i < |returnQ|
        invariant 0 <= i <= |returnQ| && Abs() == old(Abs())
        invariant forall k :: 0 <= k < i ==> clk < returnQ[k].complete
      {
        if clk >= returnQ[i].complete {
          t := Some(returnQ[i]);
          returned := returned + multiset{Ticketed(returnQ[i])};
          returnQ := returnQ[..i] + returnQ[i + 1..];
          return;
        }
        i := i + 1;
      }
      return None;
    }

    method AnswerReads(addr: nat)
      modifies this`returnQ, this`pendingRd
      ensures returnQ == old(returnQ) + Completed(Matching(old(pendingRd), addr), clk + cfg.ReadDelay())
      ensures pendingRd == Others(old(pendingRd), addr)
    {
      ghost var due := Matching(pendingRd, addr);
      ghost var out := Completed(due, clk + cfg.ReadDelay());
      var numReads := |Matching(pendingRd, addr)|;
      ghost var done := 0;
      while numReads > 0
        invariant 0 <= done && 0 <= numReads && done + numReads == |due|
        invariant Matching(pendingRd, addr) == due[done..] && Others(pendingRd, addr) == Others(old(pendingRd), addr)
        invariant returnQ == old(returnQ) + out[..done]
      {
        var t := Matching(pendingRd, addr)[0];
        TakeMatch(pendingRd, addr);
        assert out[..done + 1] == out[..done] + [t.(complete := clk + cfg.ReadDelay())];
        assert due[done..][1..] == due[done + 1..];
        returnQ := returnQ + [t.(complete := clk + cfg.ReadDelay())];
        pendingRd := EraseOne(pendingRd, addr);
        numReads := numReads - 1;
        done := done + 1;
      }
      NoMatch(pendingRd, addr);
      assert out[..done] == out;
    }

    /** The bookkeeping of a read or write command; false where its address is not pending. */
    method RetirePending(cmd: Command) returns (ok: bool)
      modifies this`returnQ, this`pendingRd, this`pendingWr
      ensures ok == Awaited(old(Abs()), cmd)
      ensures ok ==> Abs() == Retired(cfg, old(Abs()), cmd)
    {
      hide Matching, Others, EraseOne, Completed, Has;
      if IsRead(cmd.ty) {
        NoMatch(pendingRd, cmd.hexAddr);
        if |Matching(pendingRd, cmd.hexAddr)| == 0 {
          return false;
        }
        AnswerReads(cmd.hexAddr);
      } else if IsWrite(cmd.ty) {
        if !Has(pendingWr, cmd.hexAddr) {
          return false;
        }
        pendingWr := EraseOne(pendingWr, cmd.hexAddr);
      }
      return true;
    }

    /** Returns false where the source exits. */
    method IssueCommand(cmd: Command) returns (ok: bool)
      requires Linked() && channelState.Whole() && Addressed(cfg, cmd)
      modifies this`returnQ, this`pendingRd, this`pendingWr, this`log, channelState
      ensures Controllers.IssueCommand(cfg, old(Abs()), cmd) == if ok then Some(Abs()) else None
    {
      hide Update, Awaited, Retired;
      ok := RetirePending(cmd);
      if ok {
        ok := channelState.UpdateTimingAndStates(cmd, clk);
        log := log + [Issued(clk, cmd)];
      }
    }

    method ChooseCommand() returns (r: Pick)
      requires Linked() && Shapely(cfg, Abs())
      modifies cmdQueue
      ensures (cmdQueue.Abs(), r) == Choose(cfg, old(Abs())) && |cmdQueue.queues| == |old(cmdQueue.queues)|
    {
      hide FinishRefresh, GetCommandToIssue;
      r := Wait;
      if channelState.refreshQ != [] {
        r := cmdQueue.FinishRefresh();
      }
      if r.Wait? {
        r := cmdQueue.GetCommandToIssue();
      }
    }

    method FirstWithRoom(ts: seq<Transaction>) returns (i: nat)
      requires Linked() && ValidConfig(cfg) && |cmdQueue.queues| == NumQueues(cfg)
      ensures i == FirstAccepted(cfg, cmdQueue.Abs(), ts)
    {
      hide AddressMap.ValidMapping, RefreshInterval, TransToCommand, QueueIndex, NumQueues;
      i := 0;
      while i < |ts|
        invariant 0 <= i <= |ts|
        invariant forall k :: 0 <= k < i ==> !Accepts(cfg, cmdQueue.Abs(), ts[k])
      {
        CommandPlace(cfg, ts[i]);
        var room := cmdQueue.WillAcceptCommand(TransToCommand(cfg, ts[i]).addr);
        if room {
          return;
        }
        i := i + 1;
      }
    }

    method ScheduleTransaction()
      requires Linked() && ValidConfig(cfg) && |cmdQueue.queues| == NumQueues(cfg)
      modifies this`draining, this`unified, this`readQ, this`writeBuf, cmdQueue`queues
      ensures Abs() == Controllers.ScheduleTransaction(cfg, old(Abs()))
    {
      hide AddressMap.ValidMapping, RefreshInterval, TransToCommand, QueueIndex, AddCommand, Has, QueueEmpty, Draining,
           FirstAccepted, NumQueues;
      ScheduleIs(cfg, Abs());
      hide Controllers.ScheduleTransaction, Hand;
      StartDraining();
      var fromWrites := draining > 0;
      var ts := if cfg.unifiedQueue then unified else if fromWrites then writeBuf else readQ;
      var i := FirstWithRoom(ts);
      if i < |ts| {
        CommandPlace(cfg, ts[i]);
        HandOver(ts, i, fromWrites);
      }
    }

    /** Transaction `i` becomes a command, unless a read holds its write back. */
    method HandOver(ts: seq<Transaction>, i: nat, fromWrites: bool)
      requires Linked() && AddressMap.ValidMapping(cfg) && i < |ts|
      requires 0 <= QueueIndex(cfg, TransToCommand(cfg, ts[i]).addr) < |cmdQueue.queues|
      modifies this`draining, this`unified, this`readQ, this`writeBuf, cmdQueue`queues
      ensures Abs() == Hand(cfg, old(Abs()), ts, i, fromWrites)
    {
      var cmd := TransToCommand(cfg, ts[i]);
      assert IsWrite(cmd.ty) == ts[i].isWrite;
      hide AddressMap.ValidMapping, TransToCommand, QueueIndex, AddCommand, Has;
      if !cfg.unifiedQueue && IsWrite(cmd.ty) {
        if Has(pendingRd, ts[i].addr) {
          draining := 0;
          return;
        }
        draining := draining - 1;
      }
      cmdQueue.AddCommand(cmd);
      if cfg.unifiedQueue {
        unified := Removed(ts, i);
      } else if fromWrites {
        writeBuf := Removed(ts, i);
      } else {
        readQ := Removed(ts, i);
      }
    }

    /** One cycle: no exit is reached and the run invariant holds again. */
    method ClockTick()
      requires Valid()
      modifies this, channelState, cmdQueue, refresh
      ensures Valid() && Step(cfg, old(Abs()), Tick) == Some(Abs())
    {
      hide Core, InOrder, ValidConfig, Shapely, Choose, Controllers.IssueCommand, Controllers.ScheduleTransaction,
           RefreshTick;
      TickInv(cfg, Abs());
      ghost var s1 := RefreshedOk(cfg, Abs());
      TickRefresh();
      StepRuns(cfg, s1);
      IssueReady();
      ScheduleTransaction();
      clk := clk + 1;
      cmdQueue.ClockTick();
    }

    method TickRefresh()
      requires Linked() && ValidConfig(cfg)
      modifies refresh, channelState`refreshQ
      ensures Abs() == RefreshTick(cfg, old(Abs()))
    {
      hide ValidConfig, RefreshCommand, Controllers.IterateNext, RefreshInterval;
      refresh.ClockTick();
    }

    /** The command half of a cycle. */
    method IssueReady()
      requires Linked() && Core(cfg, Abs()) && Shapely(cfg, Abs()) && IssueStep(cfg, Abs()).Some?
      modifies this`returnQ, this`pendingRd, this`pendingWr, this`log, channelState, cmdQueue
      ensures Abs() == IssueStep(cfg, old(Abs())).value && |cmdQueue.queues| == NumQueues(cfg)
    {
      hide Choose, Controllers.IssueCommand;
      ghost var i, p, m := ChooseOk(cfg, Abs());
      hide Core, ValidConfig;
      var r := ChooseCommand();
      if r.Issue? {
        var ok := IssueCommand(r.cmd);
      }
    }

    method StartDraining()
      modifies this`draining
      ensures draining == Draining(cfg, old(Abs()))
    {
      if draining == 0 && !cfg.unifiedQueue {
        var idle := cmdQueue.QueueEmpty();
        if |writeBuf| >= cfg.transQueueSize || (|writeBuf| > 8 && idle) {
          draining := |writeBuf|;
        }
      }
    }

    static lemma CommandPlace(config: Config, t: Transaction)
      requires ValidConfig(config)
      ensures 0 <= QueueIndex(config, TransToCommand(config, t).addr) < NumQueues(config)
      ensures IsWrite(TransToCommand(config, t).ty) == t.isWrite
    {
      AddressMap.InRange(config, t.addr);
      IndexOk(config, TransToCommand(config, t).addr);
    }
  }
}
