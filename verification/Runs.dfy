/** Runs of a controller: any interleaving of arriving transactions, clock ticks and callbacks. */
module Runs {
  import opened Common
  import opened Channels
  import opened ChannelProofs
  import opened CommandQueues
  import opened Controllers
  import opened ControllerProofs
  import opened RefreshProofs
  import opened Trace
  import opened Options
  import AddressMap
  import Arith

  datatype Op = Tick | Add(addr: nat, isWrite: bool) | Return

  /** One operation. A transaction for which there is no room is not added; None where the source
      exits or indexes outside a table. */
  ghost function Step(cfg: Config, s: Ctrl, op: Op): Option<Ctrl>
    requires ValidConfig(cfg)
  {
    match op
    case Tick => if Shapely(cfg, RefreshTick(cfg, s)) then ClockTick(cfg, s) else None
    case Add(addr, isWrite) =>
      Some(if WillAcceptTransaction(cfg, s, isWrite) then AddTransaction(cfg, s, addr, isWrite) else s)
    case Return => Some(ReturnDoneTrans(s, s.clk).0)
  }

  ghost function Run(cfg: Config, ops: seq<Op>): Option<Ctrl>
    requires ValidConfig(cfg)
  {
    if ops == [] then Some(Initial(cfg))
    else
      match Run(cfg, ops[..|ops| - 1])
      case None => None
      case Some(s) => Step(cfg, s, ops[|ops| - 1])
  }

  ghost predicate Inv(cfg: Config, s: Ctrl) {
    Core(cfg, s) && Past(s.log, s.clk) && s.ref.clk == s.clk && InOrder(cfg, s)
  }

  lemma InvPast(cfg: Config, s: Ctrl)
    requires Inv(cfg, s)
    ensures Past(s.log, s.clk)
  {
    hide Core;
  }

  lemma ShapelyShaped(cfg: Config, s: Ctrl)
    requires Shapely(cfg, s)
    ensures Shaped(cfg, s.ch)
  {
  }

  lemma IssueInOrder(cfg: Config, s: Ctrl, s': Ctrl, cmd: Command)
    requires ValidConfig(cfg) && InOrder(cfg, s) && s'.ref == s.ref && s'.log == s.log + [Issued(s.clk, cmd)]
    requires
      if IsRefresh(cmd.ty) then
        s.ch.refreshQ != [] && cmd == s.ch.refreshQ[0] && s'.ch.refreshQ == s.ch.refreshQ[1..]
      else s'.ch.refreshQ == s.ch.refreshQ
    ensures InOrder(cfg, s')
  {
    hide Counters, Targets, Insertions, ValidConfig;
    assert s'.log[..|s.log|] == s.log;
    if IsRefresh(cmd.ty) { assert s.ch.refreshQ == [cmd] + s'.ch.refreshQ; }
  }

  lemma StepLog(cfg: Config, s: Ctrl, s': Ctrl)
    requires Core(cfg, s) && Shapely(cfg, s)
    requires StepForm(cfg, s, s', Choose(cfg, s).0, Choose(cfg, s).1)
    ensures s'.clk == s.clk && s'.ref == s.ref && s'.cq.clk == s.clk
    ensures match Choose(cfg, s).1 case Issue(cmd) => s'.log == s.log + [Issued(s.clk, cmd)] case _ => s'.log == s.log
    ensures Past(s.log, s.clk) ==> Past(s'.log, s.clk + 1)
  {
    hide Books, Tracks, Choose, RefreshState, QueuesShaped, Ready, Update, ValidConfig;
    CoreShapely(cfg, s);
    var i, p, m := ChooseOk(cfg, s);
  }

  /** The command half of a cycle serves refreshes in the order they wait. */
  lemma StepInOrder(cfg: Config, s: Ctrl, s': Ctrl)
    requires Core(cfg, s) && Shapely(cfg, s) && InOrder(cfg, s)
    requires StepForm(cfg, s, s', Choose(cfg, s).0, Choose(cfg, s).1)
    ensures InOrder(cfg, s')
  {
    hide Books, Tracks, Choose, RefreshState, QueuesShaped, Ready, Update, ValidConfig, Insertions, Counters, Targets;
    CoreShapely(cfg, s);
    var i, p, m := ChooseOk(cfg, s);
    var (q, r) := Choose(cfg, s);
    StepLog(cfg, s, s');
    if r.Issue? {
      DroppedFront(cfg, s.ch, r.cmd, s.clk);
      IssueInOrder(cfg, s, s', r.cmd);
    }
  }

  lemma DroppedFront(cfg: Config, ch: Channel, cmd: Command, clk: int)
    requires Shaped(cfg, ch) && Ready(cfg, ch, cmd, clk) && Update(cfg, ch, cmd, clk).Some?
    ensures IsRefresh(cmd.ty) && ch.refreshQ != [] && ch.refreshQ[0] == cmd ==>
        Update(cfg, ch, cmd, clk).value.refreshQ == ch.refreshQ[1..]
    ensures !IsRefresh(cmd.ty) ==> Update(cfg, ch, cmd, clk).value.refreshQ == ch.refreshQ
  {
  }

  lemma SchedulePast(cfg: Config, s: Ctrl)
    requires AddressMap.ValidMapping(cfg)
    ensures var s' := ScheduleTransaction(cfg, s);
      s'.log == s.log && s'.clk == s.clk && s'.ref == s.ref && s'.ch == s.ch && s'.cq.clk == s.cq.clk
  {
    hide AddressMap.ValidMapping, AddressMap.AddressMapping, TransToCommand;
  }

  /** A tick never exits and keeps the invariant. */
  lemma TickInv(cfg: Config, s: Ctrl)
    requires Inv(cfg, s)
    ensures Step(cfg, s, Tick).Some? && Inv(cfg, Step(cfg, s, Tick).value)
  {
    hide Books, Tracks, RefreshState, QueuesShaped, ValidConfig, InOrder, ClockTick, IssueStep, ScheduleTransaction,
         Choose, RefreshTick;
    var s1 := RefreshedOk(cfg, s);
    hide Device;
    StepRuns(cfg, s1);
    var s2 := IssueStep(cfg, s1).value;
    StepLog(cfg, s1, s2);
    StepDevice(cfg, s1, s2);
    StepBooks(cfg, s1, s2);
    StepInOrder(cfg, s1, s2);
    TickEnd(cfg, s, s1, s2);
  }

  lemma RefreshedOk(cfg: Config, s: Ctrl) returns (s1: Ctrl)
    requires Inv(cfg, s)
    ensures ValidConfig(cfg) && s1 == RefreshTick(cfg, s) && Core(cfg, s1) && Shapely(cfg, s1) && InOrder(cfg, s1)
    ensures s1.clk == s.clk && s1.log == s.log && s1.ref.clk == s.clk + 1
  {
    s1 := RefreshTick(cfg, s);
    assert GenOk(cfg, s.ref) by {
      hide Core, Past;
      CountersOk(cfg, Insertions(cfg, s.clk), s.clk);
    }
    hide Books, Tracks, RefreshState, QueuesShaped, InOrder;
    RefreshTickCore(cfg, s);
    RefreshTickInOrder(cfg, s);
    CoreShapely(cfg, s1);
  }

  lemma CountersOk(cfg: Config, k: nat, clk: nat)
    requires Sized(cfg)
    ensures GenOk(cfg, Counters(cfg, k, clk))
  {
  }

  lemma TickEnd(cfg: Config, s: Ctrl, s1: Ctrl, s2: Ctrl)
    requires ValidConfig(cfg) && s1 == RefreshTick(cfg, s) && Shapely(cfg, s1)
    requires IssueStep(cfg, s1) == Some(s2) && Core(cfg, s2) && InOrder(cfg, s2)
    requires s2.clk == s.clk && s2.ref.clk == s.clk + 1 && Past(s2.log, s.clk + 1)
    ensures Step(cfg, s, Tick).Some? && Inv(cfg, Step(cfg, s, Tick).value)
  {
    hide Tracks, IssueStep, ScheduleTransaction, Choose, RefreshTick, Shapely, Books;
    ScheduleCore(cfg, s2);
    SchedulePast(cfg, s2);
    var s3 := ScheduleTransaction(cfg, s2);
    var s4 := s3.(clk := s.clk + 1, cq := s3.cq.(clk := s3.cq.clk + 1));
    BooksFrame(cfg, s3, s4);
  }

  lemma OtherInv(cfg: Config, s: Ctrl, op: Op)
    requires Inv(cfg, s) && op != Tick
    ensures Step(cfg, s, op).Some? && Inv(cfg, Step(cfg, s, op).value)
  {
    hide Device, Books;
    match op
    case Add(addr, isWrite) => AddCore(cfg, s, addr, isWrite);
    case Return => ReturnCore(cfg, s, s.clk);
  }

  lemma {:induction false} EmptyKeys(n: nat)
    ensures QueueKeys(seq(n, i => [])) == multiset{}
  {
    if n > 0 {
      var qs: seq<seq<Command>> := seq(n, i => []);
      assert qs[..n - 1] == seq(n - 1, i => []);
      EmptyKeys(n - 1);
      assert CmdKeys([]) == [];
    }
  }

  lemma InitialDevice(cfg: Config)
    requires ValidConfig(cfg)
    ensures Device(cfg, Initial(cfg))
  {
    Arith.MulPos(cfg.bankgroups, cfg.banksPerGroup);
    Arith.MulPos(cfg.Banks(), cfg.ranks);
    InitialTracks(cfg);
    hide Tracks, AddressMap.ValidMapping, RefreshInterval, InitialChannel;
    assert Initial(cfg).ch.refreshQ == [] by { InitialQueue(cfg); }
  }

  lemma InitialQueue(cfg: Config)
    requires 0 <= cfg.ranks
    ensures InitialChannel(cfg).refreshQ == []
  {
  }

  lemma InitialBooks(cfg: Config)
    requires ValidConfig(cfg)
    ensures Books(cfg, Initial(cfg))
  {
    hide InitialChannel, RefreshInterval;
    var s := Initial(cfg);
    assert s.cq.queues == seq(|s.cq.queues|, i => []);
    EmptyKeys(|s.cq.queues|);
    assert TransKeys([]) == [] && Tickets([]) == [];
    assert Waiting(s) == multiset{};
  }

  lemma InitialInv(cfg: Config)
    requires ValidConfig(cfg)
    ensures Inv(cfg, Initial(cfg))
  {
    InitialDevice(cfg);
    InitialBooks(cfg);
    hide Device, Books;
    CountZero(cfg);
    InitialQueue(cfg);
  }

  lemma CountZero(cfg: Config)
    requires Sized(cfg)
    ensures Counters(cfg, 0, 0) == RefreshGen(0, 0, 0, 0)
  {
    Arith.Small(0, cfg.ranks);
    Arith.Small(0, cfg.bankgroups);
    Arith.Small(0, cfg.banksPerGroup);
  }

  /** In every run no exit and no out-of-range access is reached, and the invariant holds. */
  lemma {:induction false} RunInv(cfg: Config, ops: seq<Op>)
    requires ValidConfig(cfg)
    ensures Run(cfg, ops).Some? && Inv(cfg, Run(cfg, ops).value)
  {
    if ops == [] {
      InitialInv(cfg);
    } else {
      hide Core, Past, InOrder, ValidConfig;
      RunInv(cfg, ops[..|ops| - 1]);
      var s := Run(cfg, ops[..|ops| - 1]).value;
      var op := ops[|ops| - 1];
      if op == Tick { TickInv(cfg, s); } else { OtherInv(cfg, s, op); }
    }
  }

  /** The command trace of every run is legal, keeps every delay of the consulted tables, and keeps
      the activation windows. */
  lemma TraceSafety(cfg: Config, ops: seq<Op>)
    requires ValidConfig(cfg)
    ensures Run(cfg, ops).Some? && TraceOk(cfg, Run(cfg, ops).value.log)
  {
    hide Books, Past, InOrder, ValidConfig, TraceOk, RowsMatch, TimersMatch, WindowsMatch, RefreshState;
    RunInv(cfg, ops);
  }

  /** In every run, each accepted transaction is exactly one of: a pending read, awaiting its
      callback, called back; and each address with a pending read (write) waits exactly once as a
      read (write), over all transaction and command queues. */
  lemma Conservation(cfg: Config, ops: seq<Op>)
    requires ValidConfig(cfg)
    ensures Run(cfg, ops).Some?
    ensures var s := Run(cfg, ops).value; NoneLost(s) && OneEach(s) && SingleWrites(s.pendingWr)
  {
    hide Device, Past, InOrder, ValidConfig, NoneLost, OneEach, SingleWrites, Ordered, Sides;
    RunInv(cfg, ops);
  }

  /** In every run the refreshes issued, followed by those waiting, are the first insertions of the
      fixed rotation: none is lost, repeated or overtaken. */
  lemma RefreshesInOrder(cfg: Config, ops: seq<Op>)
    requires ValidConfig(cfg)
    ensures Run(cfg, ops).Some?
    ensures var s := Run(cfg, ops).value; Refreshes(s.log) + s.ch.refreshQ == Targets(cfg, Insertions(cfg, s.clk))
  {
    hide Core, Past, Insertions, Counters, Targets, Refreshes;
    RunInv(cfg, ops);
  }

  /** The number of writes left to drain stays within the write buffer. */
  lemma DrainBounded(cfg: Config, ops: seq<Op>)
    requires ValidConfig(cfg)
    ensures Run(cfg, ops).Some?
    ensures var s := Run(cfg, ops).value; 0 <= s.draining <= |s.writeBuf|
  {
    hide Device, Past, InOrder, ValidConfig, NoneLost, OneEach, SingleWrites, Ordered;
    RunInv(cfg, ops);
  }

  /** What a tick sends out: the command that `Choose` picks after the refresh generator ran. */
  ghost function TickPick(cfg: Config, s: Ctrl): Pick
    requires ValidConfig(cfg) && Shapely(cfg, RefreshTick(cfg, s))
  {
    Choose(cfg, RefreshTick(cfg, s)).1
  }

  /** No write command goes out while a read of its address is still pending. */
  lemma WriteHeld(cfg: Config, s: Ctrl)
    requires Inv(cfg, s)
    ensures ValidConfig(cfg) && Shapely(cfg, RefreshTick(cfg, s))
    ensures var r := TickPick(cfg, s); r.Issue? && IsWrite(r.cmd.ty) ==> !Has(s.pendingRd, r.cmd.hexAddr)
  {
    hide Books, Tracks, RefreshState, QueuesShaped, InOrder, ClockTick, IssueStep, Choose;
    var s1 := RefreshedOk(cfg, s);
    var i, p, m := ChooseOk(cfg, s1);
    var (q, r) := Choose(cfg, s1);
    hide Device;
    if r.Issue? && IsWrite(r.cmd.ty) { NoReadOvertaken(cfg, s1, q, r.cmd, i, p, m); }
  }

  /** After every run, in split and in unified mode, the command of the next tick is no write of an
      address with a read still pending. */
  lemma WriteAfterReads(cfg: Config, ops: seq<Op>)
    requires ValidConfig(cfg)
    ensures Run(cfg, ops).Some? && Shapely(cfg, RefreshTick(cfg, Run(cfg, ops).value))
    ensures var s := Run(cfg, ops).value; var r := TickPick(cfg, s);
      r.Issue? && IsWrite(r.cmd.ty) ==> !Has(s.pendingRd, r.cmd.hexAddr)
  {
    hide Run, Inv, ValidConfig, Shapely, TickPick, RefreshTick;
    RunInv(cfg, ops);
    WriteHeld(cfg, Run(cfg, ops).value);
  }
}
