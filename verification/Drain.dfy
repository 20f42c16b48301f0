/** From transactions to commands (runtime/DRAMsim3/src/controller.cc:196-227): when the write buffer is
    drained, for how long, and what moves in each cycle. */
module Drain {
  import opened Common
  import opened Channels
  import opened ChannelProofs
  import opened CommandQueues
  import opened QueueProofs
  import opened Controllers
  import opened ControllerProofs
  import opened RefreshProofs
  import opened Runs
  import opened Progress
  import AddressMap

  /** The state after the command half of the next tick. */
  ghost function Mid(cfg: Config, s: Ctrl): Ctrl
    requires ValidConfig(cfg)
  {
    var s1 := RefreshTick(cfg, s);
    if Shapely(cfg, s1) && IssueStep(cfg, s1).Some? then IssueStep(cfg, s1).value else s
  }

  /** The queue of the bank that holds the address of `t` is not full. */
  predicate HasRoom(cfg: Config, q: CmdQueue, t: Transaction)
    requires AddressMap.ValidMapping(cfg)
  {
    var k := QueueIndex(cfg, AddressMap.AddressMapping(cfg, t.addr));
    0 <= k < |q.queues| && |q.queues[k]| < cfg.cmdQueueSize
  }

  predicate NoRoom(cfg: Config, q: CmdQueue, ts: seq<Transaction>)
    requires AddressMap.ValidMapping(cfg)
  {
    forall i :: 0 <= i < |ts| ==> !HasRoom(cfg, q, ts[i])
  }

  /** Entry `n` of `ts` is the oldest with room. */
  predicate Oldest(cfg: Config, q: CmdQueue, ts: seq<Transaction>, n: int)
    requires AddressMap.ValidMapping(cfg)
  {
    0 <= n < |ts| && HasRoom(cfg, q, ts[n]) && NoRoom(cfg, q, ts[..n])
  }

  /** The command of `t` has joined the queue of its bank. */
  predicate Queued(cfg: Config, q: CmdQueue, q': CmdQueue, t: Transaction)
    requires AddressMap.ValidMapping(cfg) && HasRoom(cfg, q, t)
  {
    var cmd := TransToCommand(cfg, t);
    var k := QueueIndex(cfg, AddressMap.AddressMapping(cfg, t.addr));
    q'.queues == q.queues[k := q.queues[k] + [cmd]]
  }

  /** The oldest entry of `ts` with room, if there is one, has become a command. */
  ghost predicate OldestMoved(cfg: Config, q: CmdQueue, q': CmdQueue, ts: seq<Transaction>, ts': seq<Transaction>)
    requires AddressMap.ValidMapping(cfg)
  {
    && (NoRoom(cfg, q, ts) ==> q'.queues == q.queues && ts' == ts)
    && forall n :: Oldest(cfg, q, ts, n) ==> Queued(cfg, q, q', ts[n]) && ts' == ts[..n] + ts[n + 1..]
  }

  /** The oldest write with room is of an address with a read pending. */
  ghost predicate HeldBack(cfg: Config, m: Ctrl)
    requires AddressMap.ValidMapping(cfg)
  {
    exists n :: Oldest(cfg, m.cq, m.writeBuf, n) && Has(m.pendingRd, m.writeBuf[n].addr)
  }

  /** The write buffer is full, or holds more than eight writes while no command is queued. */
  predicate Pressed(cfg: Config, m: Ctrl) {
    |m.writeBuf| >= cfg.transQueueSize || (|m.writeBuf| > 8 && QueueEmpty(m.cq))
  }

  /** Writes to move, this cycle's among them: all that are buffered where draining starts, else those left. */
  function ToMove(cfg: Config, m: Ctrl): int { if m.draining == 0 && Pressed(cfg, m) then |m.writeBuf| else m.draining }

  /** What scheduling makes of `m`. In split mode it moves writes, and writes only, while there are any to
      move; a write whose address has a read pending moves nothing and ends the draining. */
  ghost predicate Scheduled(cfg: Config, m: Ctrl, s': Ctrl)
    requires AddressMap.ValidMapping(cfg)
  {
    if cfg.unifiedQueue then
      OldestMoved(cfg, m.cq, s'.cq, m.unified, s'.unified) && s'.readQ == m.readQ && s'.writeBuf == m.writeBuf
    else if ToMove(cfg, m) == 0 then
      && OldestMoved(cfg, m.cq, s'.cq, m.readQ, s'.readQ)
      && s'.unified == m.unified && s'.writeBuf == m.writeBuf && s'.draining == 0
    else
      && s'.unified == m.unified && s'.readQ == m.readQ
      && if HeldBack(cfg, m) then s'.cq.queues == m.cq.queues && s'.writeBuf == m.writeBuf && s'.draining == 0
         else
           && OldestMoved(cfg, m.cq, s'.cq, m.writeBuf, s'.writeBuf)
           && s'.draining == ToMove(cfg, m) - (|m.writeBuf| - |s'.writeBuf|)
  }

  // ---------------------------------------------------------------- one cycle

  lemma AcceptsIs(cfg: Config, q: CmdQueue, ts: seq<Transaction>)
    requires AddressMap.ValidMapping(cfg)
    ensures var n := FirstAccepted(cfg, q, ts);
      && (n == |ts| <==> NoRoom(cfg, q, ts))
      && forall k :: Oldest(cfg, q, ts, k) <==> n < |ts| && k == n
  {
    hide FirstAccepted, QueueIndex, AddressMap.ValidMapping, AddressMap.AddressMapping;
    var n := FirstAccepted(cfg, q, ts);
    forall i | 0 <= i < |ts| ensures HasRoom(cfg, q, ts[i]) <==> Accepts(cfg, q, ts[i]) { }
    hide HasRoom, Accepts;
    assert n < |ts| ==> HasRoom(cfg, q, ts[n]);
    forall k | Oldest(cfg, q, ts, k) ensures k == n { }
  }

  lemma AddedIs(cfg: Config, q: CmdQueue, t: Transaction)
    requires AddressMap.ValidMapping(cfg) && HasRoom(cfg, q, t)
    ensures 0 <= QueueIndex(cfg, TransToCommand(cfg, t).addr) < |q.queues|
    ensures Queued(cfg, q, AddCommand(cfg, q, TransToCommand(cfg, t)), t)
  {
  }

  lemma MovedIs(cfg: Config, q: CmdQueue, q': CmdQueue, ts: seq<Transaction>, n: int)
    requires AddressMap.ValidMapping(cfg) && Oldest(cfg, q, ts, n) && n == FirstAccepted(cfg, q, ts)
    requires Queued(cfg, q, q', ts[n])
    ensures OldestMoved(cfg, q, q', ts, Removed(ts, n))
  {
    hide FirstAccepted, HasRoom, Queued;
    AcceptsIs(cfg, q, ts);
  }

  lemma StillIs(cfg: Config, q: CmdQueue, ts: seq<Transaction>)
    requires AddressMap.ValidMapping(cfg) && NoRoom(cfg, q, ts)
    ensures OldestMoved(cfg, q, q, ts, ts)
  {
    hide HasRoom, Queued;
  }

  /** The schedule of a cycle. */
  lemma ScheduleIs(cfg: Config, m: Ctrl)
    requires AddressMap.ValidMapping(cfg) && Sides(cfg, m)
    ensures Scheduled(cfg, m, ScheduleTransaction(cfg, m))
  {
    hide FirstAccepted, HasRoom, Queued, AddressMap.ValidMapping, TransToCommand, QueueIndex, Has, OldestMoved,
         AddCommand;
    DrainingIs(cfg, m);
    hide Draining, ToMove;
    var d := Draining(cfg, m);
    var ts := if cfg.unifiedQueue then m.unified else if d > 0 then m.writeBuf else m.readQ;
    var n := FirstAccepted(cfg, m.cq, ts);
    AcceptsIs(cfg, m.cq, ts);
    if n == |ts| {
      StillIs(cfg, m.cq, ts);
    } else {
      assert Oldest(cfg, m.cq, ts, n);
      AddedIs(cfg, m.cq, ts[n]);
      MovedIs(cfg, m.cq, AddCommand(cfg, m.cq, TransToCommand(cfg, ts[n])), ts, n);
    }
  }

  lemma DrainingIs(cfg: Config, m: Ctrl)
    ensures !cfg.unifiedQueue ==> Draining(cfg, m) == ToMove(cfg, m)
    ensures 0 <= m.draining ==> 0 <= Draining(cfg, m)
  {
  }

  // ---------------------------------------------------------------- runs

  /** The command half of a tick leaves the transactions that wait where they are. */
  predicate SameWaiting(s: Ctrl, m: Ctrl) {
    m.unified == s.unified && m.readQ == s.readQ && m.writeBuf == s.writeBuf && m.draining == s.draining
  }

  lemma RefreshWaiting(cfg: Config, s: Ctrl)
    requires ValidConfig(cfg)
    ensures SameWaiting(s, RefreshTick(cfg, s)) && RefreshTick(cfg, s).pendingRd == s.pendingRd
    ensures RefreshTick(cfg, s).cq == s.cq
  {
  }

  lemma FormWaiting(cfg: Config, s: Ctrl, s': Ctrl, q: CmdQueue, r: Pick)
    requires Shaped(cfg, s.ch) && StepForm(cfg, s, s', q, r)
    ensures SameWaiting(s, s') && s'.cq == q && (!(r.Issue? && IsRead(r.cmd.ty)) ==> s'.pendingRd == s.pendingRd)
  {
    hide Ready, Update, Matching, Others, EraseOne, Completed;
  }

  lemma MidIs(cfg: Config, s: Ctrl)
    requires Inv(cfg, s)
    ensures ValidConfig(cfg) && AddressMap.ValidMapping(cfg) && Step(cfg, s, Tick).Some?
    ensures var m, s' := Mid(cfg, s), Step(cfg, s, Tick).value;
      && SameWaiting(s, m) && Sides(cfg, m) && SameWaiting(ScheduleTransaction(cfg, m), s')
      && s'.cq.queues == ScheduleTransaction(cfg, m).cq.queues
  {
    hide Inv, Core, StepForm, Choose, IssueStep, RefreshTick, ScheduleTransaction, Shapely, SameWaiting, Sides;
    var s1, s' := TickStages(cfg, s);
    MappingOk(cfg);
    hide ValidConfig;
    RefreshWaiting(cfg, s);
    ShapelyShaped(cfg, s1);
    var m := IssueStep(cfg, s1).value;
    FormWaiting(cfg, s1, m, Choose(cfg, s1).0, Choose(cfg, s1).1);
    StepBooks(cfg, s1, m);
    BooksSides(cfg, m);
    WaitingChain(s, s1, m);
    EndWaiting(ScheduleTransaction(cfg, m), s');
  }

  lemma WaitingChain(s: Ctrl, s1: Ctrl, m: Ctrl)
    requires SameWaiting(s, s1) && SameWaiting(s1, m)
    ensures SameWaiting(s, m)
  {
  }

  lemma EndWaiting(s: Ctrl, s': Ctrl)
    ensures s' == s.(clk := s'.clk, cq := s'.cq) ==> SameWaiting(s, s')
  {
  }

  lemma BooksSides(cfg: Config, s: Ctrl)
    requires Books(cfg, s)
    ensures Sides(cfg, s)
  {
    hide Placed, OneEach, SingleWrites, NoneLost, Ordered, Sides;
  }

  /** The schedule looks at the queues and transactions only. */
  lemma ScheduledFrame(cfg: Config, m: Ctrl, s: Ctrl, s': Ctrl)
    requires AddressMap.ValidMapping(cfg) && Scheduled(cfg, m, s) && SameWaiting(s, s') && s'.cq.queues == s.cq.queues
    ensures Scheduled(cfg, m, s')
  {
    hide Oldest, NoRoom, HasRoom, HeldBack, ToMove;
    forall ts, ts': seq<Transaction> | OldestMoved(cfg, m.cq, s.cq, ts, ts')
        ensures OldestMoved(cfg, m.cq, s'.cq, ts, ts') {
      MovedFrame(cfg, m.cq, s.cq, s'.cq, ts, ts');
    }
    hide OldestMoved;
  }

  lemma MovedFrame(cfg: Config, q: CmdQueue, q1: CmdQueue, q2: CmdQueue, ts: seq<Transaction>, ts': seq<Transaction>)
    requires AddressMap.ValidMapping(cfg) && OldestMoved(cfg, q, q1, ts, ts') && q2.queues == q1.queues
    ensures OldestMoved(cfg, q, q2, ts, ts')
  {
    hide NoRoom, HasRoom, AddressMap.ValidMapping;
  }

  lemma TickScheduled(cfg: Config, s: Ctrl)
    requires Inv(cfg, s)
    ensures ValidConfig(cfg) && AddressMap.ValidMapping(cfg) && Step(cfg, s, Tick).Some? && SameWaiting(s, Mid(cfg, s))
    ensures Scheduled(cfg, Mid(cfg, s), Step(cfg, s, Tick).value)
  {
    hide Inv, ValidConfig, Mid, Step, ScheduleTransaction, Scheduled, SameWaiting, Sides;
    MidIs(cfg, s);
    ScheduleIs(cfg, Mid(cfg, s));
    ScheduledFrame(cfg, Mid(cfg, s), ScheduleTransaction(cfg, Mid(cfg, s)), Step(cfg, s, Tick).value);
  }

  /** What moves in a tick after any run. In split mode draining starts when the write buffer is full, or
      holds more than eight writes while no command is queued; while it lasts the oldest write with room
      moves, else the oldest read with room; in unified mode the oldest transaction with room. */
  lemma RunScheduled(cfg: Config, ops: seq<Op>)
    requires ValidConfig(cfg)
    ensures AddressMap.ValidMapping(cfg) && Run(cfg, ops).Some? && Run(cfg, ops + [Tick]).Some?
    ensures var s := Run(cfg, ops).value;
      SameWaiting(s, Mid(cfg, s)) && Scheduled(cfg, Mid(cfg, s), Run(cfg, ops + [Tick]).value)
  {
    hide ValidConfig, Inv, Mid, Step, SameWaiting, Scheduled;
    RunInv(cfg, ops);
    TickScheduled(cfg, Run(cfg, ops).value);
    assert (ops + [Tick])[..|ops|] == ops;
  }

  // ---------------------------------------------------------------- when draining starts

  /** With nothing queued the command half of a tick leaves queues and pending reads alone. */
  lemma IdleMid(cfg: Config, s: Ctrl)
    requires Inv(cfg, s) && QueueEmpty(s.cq)
    ensures ValidConfig(cfg) && Mid(cfg, s).cq.queues == s.cq.queues && Mid(cfg, s).pendingRd == s.pendingRd
  {
    hide Inv, Core, StepForm, IssueStep, RefreshTick, Shapely, SameWaiting, ValidConfig, Choose;
    var s1, s' := TickStages(cfg, s);
    RefreshWaiting(cfg, s);
    ShapelyShaped(cfg, s1);
    FormWaiting(cfg, s1, IssueStep(cfg, s1).value, Choose(cfg, s1).0, Choose(cfg, s1).1);
    IdleChoice(cfg, s1);
  }

  lemma IdleChoice(cfg: Config, s: Ctrl)
    requires Core(cfg, s) && Shapely(cfg, s) && QueueEmpty(s.cq)
    ensures var (q, r) := Choose(cfg, s); q.queues == s.cq.queues && !(r.Issue? && IsRead(r.cmd.ty))
  {
    hide Device, Books, Choose, RefreshState, Ready, Shapely;
    var i, p, m := ChooseOk(cfg, s);
  }

  lemma RoomInEmpty(cfg: Config, q: CmdQueue, t: Transaction)
    requires ValidConfig(cfg) && QueueEmpty(q) && |q.queues| == NumQueues(cfg)
    ensures HasRoom(cfg, q, t)
  {
    AddressMap.InRange(cfg, t.addr);
    IndexOk(cfg, AddressMap.AddressMapping(cfg, t.addr));
  }

  lemma OldestIsFirst(cfg: Config, q: CmdQueue, ts: seq<Transaction>)
    requires AddressMap.ValidMapping(cfg) && ts != [] && HasRoom(cfg, q, ts[0])
    ensures forall n :: Oldest(cfg, q, ts, n) <==> n == 0
  {
    hide HasRoom;
    forall n | Oldest(cfg, q, ts, n) ensures n == 0 {
      if n > 0 { FirstHasRoom(cfg, q, ts, n); }
    }
  }

  lemma FirstHasRoom(cfg: Config, q: CmdQueue, ts: seq<Transaction>, n: int)
    requires AddressMap.ValidMapping(cfg) && 0 < n <= |ts| && HasRoom(cfg, q, ts[0])
    ensures !NoRoom(cfg, q, ts[..n])
  {
    hide HasRoom;
    assert ts[..n][0] == ts[0];
  }

  lemma EmptyMoves(cfg: Config, m: Ctrl, s': Ctrl)
    requires ValidConfig(cfg) && QueueEmpty(m.cq) && |m.cq.queues| == NumQueues(cfg) && !cfg.unifiedQueue
    requires |m.writeBuf| > 8 && !Has(m.pendingRd, m.writeBuf[0].addr) && Scheduled(cfg, m, s') && 0 <= m.draining
    ensures s'.writeBuf == m.writeBuf[1..] && s'.readQ == m.readQ
    ensures HasRoom(cfg, m.cq, m.writeBuf[0]) && Queued(cfg, m.cq, s'.cq, m.writeBuf[0])
  {
    RoomInEmpty(cfg, m.cq, m.writeBuf[0]);
    hide HasRoom, Queued, Has, ValidConfig;
    MappingOk(cfg);
    OldestIsFirst(cfg, m.cq, m.writeBuf);
    hide Oldest, NoRoom;
    assert Oldest(cfg, m.cq, m.writeBuf, 0);
    assert m.writeBuf[..0] + m.writeBuf[1..] == m.writeBuf[1..];
  }

  /** In split mode, with more than eight writes buffered, nothing queued and no read pending of the first
      one's address, a tick turns that write, and nothing else, into a command. */
  lemma DrainStarts(cfg: Config, ops: seq<Op>)
    requires ValidConfig(cfg) && !cfg.unifiedQueue && Run(cfg, ops).Some?
    requires var s := Run(cfg, ops).value;
      |s.writeBuf| > 8 && QueueEmpty(s.cq) && !Has(s.pendingRd, s.writeBuf[0].addr)
    ensures AddressMap.ValidMapping(cfg) && Run(cfg, ops + [Tick]).Some?
    ensures var s, s' := Run(cfg, ops).value, Run(cfg, ops + [Tick]).value;
      && s'.writeBuf == s.writeBuf[1..] && s'.readQ == s.readQ
      && HasRoom(cfg, s.cq, s.writeBuf[0]) && Queued(cfg, s.cq, s'.cq, s.writeBuf[0])
  {
    RunScheduled(cfg, ops);
    RunInv(cfg, ops);
    DrainBounded(cfg, ops);
    hide ValidConfig, Inv, Run, Mid, Scheduled, HasRoom, Queued, Has;
    var s := Run(cfg, ops).value;
    IdleMid(cfg, s);
    QueueCount(cfg, s);
    EmptyMoves(cfg, Mid(cfg, s), Run(cfg, ops + [Tick]).value);
    SameQueues(cfg, Mid(cfg, s).cq, s.cq, Run(cfg, ops + [Tick]).value.cq, s.writeBuf[0]);
  }

  lemma SameQueues(cfg: Config, m: CmdQueue, q: CmdQueue, q': CmdQueue, t: Transaction)
    requires AddressMap.ValidMapping(cfg) && HasRoom(cfg, m, t) && Queued(cfg, m, q', t) && m.queues == q.queues
    ensures HasRoom(cfg, q, t) && Queued(cfg, q, q', t)
  {
  }

  lemma QueueCount(cfg: Config, s: Ctrl)
    requires Inv(cfg, s)
    ensures |s.cq.queues| == NumQueues(cfg)
  {
    hide Books, Tracks, RefreshState, InOrder, Past, AllInBanks;
  }

  // ---------------------------------------------------------------- how long it lasts

  ghost function Waits(cfg: Config, ops: seq<Op>, isWrite: bool): nat
    requires ValidConfig(cfg)
  {
    match Run(cfg, ops) case None => 0 case Some(s) => if isWrite then |s.writeBuf| else |s.readQ|
  }

  /** Transactions of one kind that ticks of `more`, which follows `ops`, turn into commands. */
  ghost function MovedIn(cfg: Config, ops: seq<Op>, more: seq<Op>, isWrite: bool): nat
    requires ValidConfig(cfg)
  {
    if more == [] then 0
    else
      var before := more[..|more| - 1];
      var moved := more[|more| - 1] == Tick && Waits(cfg, ops + more, isWrite) < Waits(cfg, ops + before, isWrite);
      MovedIn(cfg, ops, before, isWrite) + if moved then 1 else 0
  }

  /** No tick of `more` finds a read pending of the address of the write whose turn it is. */
  ghost predicate NeverHeld(cfg: Config, ops: seq<Op>, more: seq<Op>)
    requires ValidConfig(cfg)
  {
    forall n :: 0 <= n < |more| && more[n] == Tick ==>
      var s := Run(cfg, ops + more[..n]);
      s.Some? && AddressMap.ValidMapping(cfg) && !HeldBack(cfg, Mid(cfg, s.value))
  }

  lemma OldestExists(cfg: Config, q: CmdQueue, ts: seq<Transaction>) returns (n: int)
    requires AddressMap.ValidMapping(cfg)
    ensures NoRoom(cfg, q, ts) || Oldest(cfg, q, ts, n)
  {
    n := FirstAccepted(cfg, q, ts);
    AcceptsIs(cfg, q, ts);
  }

  /** While there are writes to move a tick moves one or none, and no read. */
  lemma WriteTick(cfg: Config, m: Ctrl, s': Ctrl)
    requires AddressMap.ValidMapping(cfg) && !cfg.unifiedQueue && Scheduled(cfg, m, s') && !HeldBack(cfg, m)
    requires ToMove(cfg, m) > 0
    ensures s'.readQ == m.readQ && |m.writeBuf| - 1 <= |s'.writeBuf| <= |m.writeBuf|
    ensures s'.draining == ToMove(cfg, m) - (|m.writeBuf| - |s'.writeBuf|)
  {
    hide HeldBack, ToMove, Oldest, NoRoom, Queued, HasRoom;
    var n := OldestExists(cfg, m.cq, m.writeBuf);
    if Oldest(cfg, m.cq, m.writeBuf, n) { OldestRange(cfg, m.cq, m.writeBuf, n); }
  }

  lemma OldestRange(cfg: Config, q: CmdQueue, ts: seq<Transaction>, n: int)
    requires AddressMap.ValidMapping(cfg) && Oldest(cfg, q, ts, n)
    ensures 0 <= n < |ts| && HasRoom(cfg, q, ts[n])
  {
  }

  lemma OtherDraining(cfg: Config, s: Ctrl, op: Op)
    requires ValidConfig(cfg) && op != Tick && Step(cfg, s, op).Some?
    ensures Step(cfg, s, op).value.draining == s.draining
  {
    hide Has, FirstDone, ValidConfig;
  }

  lemma RunSnoc(cfg: Config, ops: seq<Op>, more: seq<Op>)
    requires ValidConfig(cfg) && more != []
    ensures var n := |more| - 1;
      ops + more == (ops + more[..n]) + [more[n]] && (ops + more)[..|ops + more| - 1] == ops + more[..n]
  {
  }

  /** Once started, draining moves as many writes as were buffered before any read moves, unless a
      pending read holds a write back. */
  lemma {:induction false} DrainsAll(cfg: Config, ops: seq<Op>, more: seq<Op>)
    requires ValidConfig(cfg) && !cfg.unifiedQueue && Run(cfg, ops).Some? && more != [] && more[0] == Tick
    requires var s := Run(cfg, ops).value; s.draining == 0 && Pressed(cfg, Mid(cfg, s)) && s.writeBuf != []
    requires NeverHeld(cfg, ops, more) && MovedIn(cfg, ops, more[..|more| - 1], true) < |Run(cfg, ops).value.writeBuf|
    ensures Run(cfg, ops + more).Some? && MovedIn(cfg, ops, more, false) == 0
    ensures Run(cfg, ops + more).value.draining == |Run(cfg, ops).value.writeBuf| - MovedIn(cfg, ops, more, true)
    decreases |more|
  {
    hide ValidConfig, Mid, HeldBack, Pressed, Scheduled, Inv, Step;
    var n := |more| - 1;
    var before := more[..n];
    RunInv(cfg, ops + more);
    RunInv(cfg, ops + before);
    RunSnoc(cfg, ops, more);
    var s, s' := Run(cfg, ops + before).value, Run(cfg, ops + more).value;
    if n == 0 {
      assert ops + before == ops;
    } else {
      HeldLess(cfg, ops, more);
      MovedLess(cfg, ops, before);
      DrainsAll(cfg, ops, before);
    }
    if more[n] == Tick {
      RunScheduled(cfg, ops + before);
      assert AddressMap.ValidMapping(cfg) && !HeldBack(cfg, Mid(cfg, s));
      hide NeverHeld;
      WriteTick(cfg, Mid(cfg, s), s');
    } else {
      OtherDraining(cfg, s, more[n]);
    }
  }

  lemma HeldLess(cfg: Config, ops: seq<Op>, more: seq<Op>)
    requires ValidConfig(cfg) && NeverHeld(cfg, ops, more) && more != []
    ensures NeverHeld(cfg, ops, more[..|more| - 1])
  {
    hide ValidConfig, HeldBack, Mid, Run;
    var before := more[..|more| - 1];
    forall n | 0 <= n < |before| && before[n] == Tick
        ensures var s := Run(cfg, ops + before[..n]);
          s.Some? && AddressMap.ValidMapping(cfg) && !HeldBack(cfg, Mid(cfg, s.value)) {
      assert before[..n] == more[..n];
    }
  }

  lemma MovedLess(cfg: Config, ops: seq<Op>, more: seq<Op>)
    requires ValidConfig(cfg) && more != []
    ensures MovedIn(cfg, ops, more[..|more| - 1], true) <= MovedIn(cfg, ops, more, true)
  {
  }

  // ---------------------------------------------------------------- capacities

  predicate QueuesWithin(qs: seq<seq<Command>>, size: int) { forall k :: 0 <= k < |qs| ==> |qs[k]| <= size }

  ghost predicate Within(cfg: Config, s: Ctrl) {
    && |s.unified| <= cfg.transQueueSize && |s.readQ| <= cfg.transQueueSize && |s.writeBuf| <= cfg.transQueueSize
    && QueuesWithin(s.cq.queues, cfg.cmdQueueSize)
  }

  /** The command half of a tick adds nothing to a queue. */
  lemma MidWithin(cfg: Config, s: Ctrl)
    requires Inv(cfg, s) && QueuesWithin(s.cq.queues, cfg.cmdQueueSize)
    ensures ValidConfig(cfg) && QueuesWithin(Mid(cfg, s).cq.queues, cfg.cmdQueueSize)
  {
    hide Inv, Core, StepForm, IssueStep, RefreshTick, Shapely, SameWaiting, ValidConfig, Choose;
    var s1, s' := TickStages(cfg, s);
    RefreshWaiting(cfg, s);
    ShapelyShaped(cfg, s1);
    FormWaiting(cfg, s1, IssueStep(cfg, s1).value, Choose(cfg, s1).0, Choose(cfg, s1).1);
    ChoiceWithin(cfg, s1);
  }

  lemma ChoiceWithin(cfg: Config, s: Ctrl)
    requires Core(cfg, s) && Shapely(cfg, s) && QueuesWithin(s.cq.queues, cfg.cmdQueueSize)
    ensures QueuesWithin(Choose(cfg, s).0.queues, cfg.cmdQueueSize)
  {
    hide Device, Books, Choose, RefreshState, Ready, Shapely, StepOf;
    var i, p, m := ChooseOk(cfg, s);
  }

  lemma MoveWithin(cfg: Config, q: CmdQueue, q': CmdQueue, ts: seq<Transaction>, ts': seq<Transaction>)
    requires AddressMap.ValidMapping(cfg) && OldestMoved(cfg, q, q', ts, ts')
    requires QueuesWithin(q.queues, cfg.cmdQueueSize)
    ensures QueuesWithin(q'.queues, cfg.cmdQueueSize) && |ts'| <= |ts|
  {
    hide Oldest, NoRoom, QueueIndex, AddressMap.ValidMapping, AddressMap.AddressMapping, TransToCommand;
    var n := OldestExists(cfg, q, ts);
    if Oldest(cfg, q, ts, n) { OldestRange(cfg, q, ts, n); }
  }

  lemma ScheduledWithin(cfg: Config, m: Ctrl, s': Ctrl)
    requires AddressMap.ValidMapping(cfg) && Scheduled(cfg, m, s') && Within(cfg, m)
    ensures Within(cfg, s')
  {
    hide OldestMoved, HeldBack, ToMove, QueuesWithin;
    if cfg.unifiedQueue {
      MoveWithin(cfg, m.cq, s'.cq, m.unified, s'.unified);
    } else if ToMove(cfg, m) == 0 {
      MoveWithin(cfg, m.cq, s'.cq, m.readQ, s'.readQ);
    } else if HeldBack(cfg, m) {
      SameWithin(m.cq.queues, s'.cq.queues, cfg.cmdQueueSize);
    } else {
      MoveWithin(cfg, m.cq, s'.cq, m.writeBuf, s'.writeBuf);
    }
  }

  lemma SameWithin(qs: seq<seq<Command>>, qs': seq<seq<Command>>, size: int)
    requires qs' == qs && QueuesWithin(qs, size)
    ensures QueuesWithin(qs', size)
  {
  }

  lemma OtherWithin(cfg: Config, s: Ctrl, op: Op)
    requires ValidConfig(cfg) && op != Tick && Step(cfg, s, op).Some? && Within(cfg, s)
    ensures Within(cfg, Step(cfg, s, op).value)
  {
    hide Has, FirstDone, ValidConfig, QueuesWithin;
  }

  lemma FirstWithin(cfg: Config)
    requires ValidConfig(cfg)
    ensures Within(cfg, Initial(cfg))
  {
    hide InitialChannel, AddressMap.ValidMapping, RefreshInterval;
  }

  /** In every run no transaction queue and no command queue holds more than its size. */
  lemma {:induction false} RunWithin(cfg: Config, ops: seq<Op>)
    requires ValidConfig(cfg)
    ensures Run(cfg, ops).Some? && Within(cfg, Run(cfg, ops).value)
  {
    hide ValidConfig, Inv, Step, Within, Mid, Scheduled, SameWaiting;
    if ops == [] {
      FirstWithin(cfg);
    } else {
      var before := ops[..|ops| - 1];
      RunWithin(cfg, before);
      RunInv(cfg, before);
      var s := Run(cfg, before).value;
      if ops[|ops| - 1] == Tick {
        TickScheduled(cfg, s);
        MidAll(cfg, s);
        ScheduledWithin(cfg, Mid(cfg, s), Step(cfg, s, Tick).value);
      } else {
        RunInv(cfg, ops);
        OtherWithin(cfg, s, ops[|ops| - 1]);
      }
    }
  }

  lemma MidAll(cfg: Config, s: Ctrl)
    requires Inv(cfg, s) && ValidConfig(cfg) && SameWaiting(s, Mid(cfg, s)) && Within(cfg, s)
    ensures Within(cfg, Mid(cfg, s))
  {
    hide Inv, ValidConfig, Mid, QueuesWithin;
    MidWithin(cfg, s);
  }
}
