/** The memory front end on top of the DRAM system (runtime/DRAMsim3/src/dram_system.cc): one controller
    per channel, requests routed by address, completions called back. */
module MemorySystem {
  import opened Common
  import opened Controllers
  import opened ControllerProofs
  import Runs
  import RefreshProofs
  import AddressMap
  import opened MemoryBursts
  import opened Options
  import F = MemoryFront
  import FP = MemoryFrontProofs
  import FW = MemoryWriteProofs

  datatype System = System(front: F.Front, ctrls: seq<Ctrl>)

  /** The front end's view of the DRAM buses: `bus` is the width of the AXI data bus in bytes. */
  function GeometryOf(cfg: Config, bus: int): Geometry { Geometry(bus, cfg.busWidth / 8, cfg.BL) }

  function GetChannel(cfg: Config, addr: nat): (c: int)
    requires ValidConfig(cfg)
    ensures 0 <= c < cfg.channels
  {
    AddressMap.InRange(cfg, addr);
    AddressMap.AddressMapping(cfg, addr).channel
  }

  /** The addresses at which DRAM takes a request now. */
  ghost function Accepting(cfg: Config, s: System, isWrite: bool): iset<int>
    requires ValidConfig(cfg) && |s.ctrls| == cfg.channels
  {
    iset a: int | 0 <= a && WillAcceptTransaction(cfg, s.ctrls[GetChannel(cfg, a)], isWrite)
  }

  function Added(cfg: Config, ctrls: seq<Ctrl>, addr: nat, isWrite: bool): seq<Ctrl>
    requires ValidConfig(cfg) && |ctrls| == cfg.channels
  {
    var c := GetChannel(cfg, addr);
    ctrls[c := AddTransaction(cfg, ctrls[c], addr, isWrite)]
  }

  datatype Op =
    | Axi(i: F.Inputs)          // one AXI clock
    | SendRead | SendWrite      // try_to_enqueue_ddr, its two halves
    | Complete(c: nat)          // one completed transaction of channel c is called back, if there is one
    | Cycle(c: nat)             // one DRAM clock of channel c

  /** One operation; None where the source exits, indexes outside a table or takes from an empty queue. */
  ghost function Step(cfg: Config, bus: int, s: System, op: Op): Option<System>
    requires ValidConfig(cfg) && GeometryOf(cfg, bus).Valid() && |s.ctrls| == cfg.channels
  {
    var g, f := GeometryOf(cfg, bus), s.front;
    match op
    case Axi(i) =>
      if !F.Sized(i.ar) || !F.Sized(i.aw) then Some(s)
      else if F.Starved(f, i) then None
      else Some(s.(front := F.Tick(g, f, i)))
    case SendRead =>
      if !F.InTable(f.readQ, f.rbursts) then None
      else
        var p := F.FirstEligible(g, f, Accepting(cfg, s, false), 0);
        if p == |f.readQ| then Some(s)
        else
          var a := F.NextAddr(g, f.rbursts[f.readQ[p]]);
          Some(System(F.IssueRead(g, f, p), Added(cfg, s.ctrls, a, false)))
    case SendWrite =>
      if !F.InTable(f.writeQ, f.wbursts) then None
      else
        var p := F.FirstTaken(g, f, Accepting(cfg, s, true), 0);
        if p == |f.writeQ| then Some(s)
        else
          var a := F.NextAddr(g, f.wbursts[f.writeQ[p]]);
          Some(System(F.IssueWrite(g, f, p), Added(cfg, s.ctrls, a, true)))
    case Complete(c) =>
      if c >= |s.ctrls| then Some(s)
      else
        (match ReturnDoneTrans(s.ctrls[c], s.ctrls[c].clk).1
         case None => Some(s)
         case Some(t) =>
           var ctrls := s.ctrls[c := ReturnDoneTrans(s.ctrls[c], s.ctrls[c].clk).0];
           match (if t.isWrite then F.WriteCallback(f, t.addr) else F.ReadCallback(g, f, t.addr))
           case None => None
           case Some(f') => Some(System(f', ctrls)))
    case Cycle(c) =>
      if c >= |s.ctrls| then Some(s)
      else
        match Runs.Step(cfg, s.ctrls[c], Runs.Tick)
        case None => None
        case Some(k) => Some(s.(ctrls := s.ctrls[c := k]))
  }

  // ---------------------------------------------------------------- what DRAM owes

  /** Transactions of one address and kind in a list. */
  function CountIn(ts: seq<Ticket>, a: int, isWrite: bool): nat {
    if ts == [] then 0
    else CountIn(ts[..|ts| - 1], a, isWrite) + if ts[|ts| - 1].addr == a && ts[|ts| - 1].isWrite == isWrite then 1
      else 0
  }

  /** Transactions that a controller has taken and not called back. */
  function OwedList(k: Ctrl): seq<Ticket> { Tickets(k.pendingRd) + Tickets(k.returnQ) }

  lemma {:induction false} CountAppend(x: seq<Ticket>, y: seq<Ticket>, a: int, w: bool)
    ensures CountIn(x + y, a, w) == CountIn(x, a, w) + CountIn(y, a, w)
    decreases |y|
  {
    if y == [] {
      assert x + y == x;
    } else {
      var n := |y| - 1;
      CountAppend(x, y[..n], a, w);
      assert (x + y)[..|x + y| - 1] == x + y[..n];
    }
  }

  lemma WithoutOne(y: seq<Ticket>, i: int)
    requires 0 <= i < |y|
    ensures multiset(y) == multiset(y[..i] + y[i + 1..]) + multiset{y[i]}
  {
    assert y == y[..i] + [y[i]] + y[i + 1..];
  }

  /** The count depends only on what is in the list. */
  lemma {:induction false} CountSame(x: seq<Ticket>, y: seq<Ticket>, a: int, w: bool)
    requires multiset(x) == multiset(y)
    ensures CountIn(x, a, w) == CountIn(y, a, w)
    decreases |x|
  {
    if x == [] {
      assert |y| == |multiset(y)| == |multiset(x)| == 0;
    } else {
      var n := |x| - 1;
      var e := x[n];
      assert x == x[..n] + [e];
      assert e in multiset(x);
      var i :| 0 <= i < |y| && y[i] == e;
      var y' := y[..i] + y[i + 1..];
      assert y == y[..i] + [e] + y[i + 1..];
      assert multiset(x) == multiset(x[..n]) + multiset{e};
      WithoutOne(y, i);
      assert multiset(y') == (multiset(y') + multiset{e}) - multiset{e};
      assert multiset(x[..n]) == (multiset(x[..n]) + multiset{e}) - multiset{e};
      CountSame(x[..n], y', a, w);
      CountAppend(y[..i] + [e], y[i + 1..], a, w);
      CountAppend(y[..i], [e], a, w);
      CountAppend(y[..i], y[i + 1..], a, w);
      assert [e][..0] == [];
    }
  }

  // ---------------------------------------------------------------- the invariant

  /** At each address the bursts waiting are as many as the transactions DRAM owes, and each channel
      holds only its own addresses. */
  ghost predicate Matched(cfg: Config, m: map<int, seq<nat>>, ctrls: seq<Ctrl>, isWrite: bool)
    requires ValidConfig(cfg) && |ctrls| == cfg.channels
  {
    forall a: nat :: |F.InFlight(m, a)| == CountIn(OwedList(ctrls[GetChannel(cfg, a)]), a, isWrite)
  }

  ghost predicate Routed(cfg: Config, ctrls: seq<Ctrl>)
    requires ValidConfig(cfg) && |ctrls| == cfg.channels
  {
    forall c, e :: 0 <= c < |ctrls| && e in OwedList(ctrls[c]) ==> GetChannel(cfg, e.addr) == c
  }

  ghost predicate CtrlsOk(cfg: Config, ctrls: seq<Ctrl>) { forall c :: 0 <= c < |ctrls| ==> Runs.Inv(cfg, ctrls[c]) }

  ghost predicate SystemInv(cfg: Config, bus: int, s: System) {
    && ValidConfig(cfg) && GeometryOf(cfg, bus).Valid() && |s.ctrls| == cfg.channels
    && CtrlsOk(cfg, s.ctrls) && Routed(cfg, s.ctrls)
    && Matched(cfg, s.front.inReads, s.ctrls, false) && Matched(cfg, s.front.inWrites, s.ctrls, true)
    && FW.FrontInv(GeometryOf(cfg, bus), s.front)
  }

  /** Controller `c` changes to `k`, which owes one more transaction. */
  lemma MatchedMore(cfg: Config, m: map<int, seq<nat>>, ctrls: seq<Ctrl>, isWrite: bool, addr: nat, i: nat, k: Ctrl,
                    e: Ticket)
    requires ValidConfig(cfg) && |ctrls| == cfg.channels && Matched(cfg, m, ctrls, isWrite)
    requires multiset(OwedList(k)) == multiset(OwedList(ctrls[GetChannel(cfg, addr)]) + [e]) && e.addr == addr
    ensures var ctrls' := ctrls[GetChannel(cfg, addr) := k];
      && (e.isWrite == isWrite ==> Matched(cfg, F.PushAt(m, addr, i), ctrls', isWrite))
      && (e.isWrite != isWrite ==> Matched(cfg, m, ctrls', isWrite))
  {
    hide GetChannel, OwedList;
    var c := GetChannel(cfg, addr);
    var ctrls' := ctrls[c := k];
    forall a: nat
      ensures CountIn(OwedList(ctrls'[GetChannel(cfg, a)]), a, isWrite)
           == CountIn(OwedList(ctrls[GetChannel(cfg, a)]), a, isWrite) + if a == addr && e.isWrite == isWrite then 1
             else 0 {
      if GetChannel(cfg, a) == c {
        CountSame(OwedList(k), OwedList(ctrls[c]) + [e], a, isWrite);
        CountAppend(OwedList(ctrls[c]), [e], a, isWrite);
        assert [e][..0] == [];
      }
    }
    hide CountIn;
  }

  /** Controller `c` changes to `k`, which owes one transaction less. */
  lemma MatchedLess(cfg: Config, m: map<int, seq<nat>>, ctrls: seq<Ctrl>, isWrite: bool, c: nat, k: Ctrl, e: Ticket)
    requires ValidConfig(cfg) && |ctrls| == cfg.channels && Matched(cfg, m, ctrls, isWrite)
    requires c < |ctrls| && multiset(OwedList(ctrls[c])) == multiset(OwedList(k) + [e]) && GetChannel(cfg, e.addr) == c
    ensures e.isWrite == isWrite ==>
        F.InFlight(m, e.addr) != [] && Matched(cfg, F.PopAt(m, e.addr), ctrls[c := k], isWrite)
    ensures e.isWrite != isWrite ==> Matched(cfg, m, ctrls[c := k], isWrite)
  {
    hide GetChannel, OwedList;
    var ctrls' := ctrls[c := k];
    forall a: nat
      ensures CountIn(OwedList(ctrls[GetChannel(cfg, a)]), a, isWrite)
           == CountIn(OwedList(ctrls'[GetChannel(cfg, a)]), a, isWrite) + if a == e.addr && e.isWrite == isWrite then 1
             else 0 {
      if GetChannel(cfg, a) == c {
        CountSame(OwedList(ctrls[c]), OwedList(k) + [e], a, isWrite);
        CountAppend(OwedList(k), [e], a, isWrite);
        assert [e][..0] == [];
      }
    }
    hide CountIn;
    assert |F.InFlight(m, e.addr)| == CountIn(OwedList(ctrls[GetChannel(cfg, e.addr)]), e.addr, isWrite);
  }

  lemma MatchedSame(cfg: Config, m: map<int, seq<nat>>, ctrls: seq<Ctrl>, isWrite: bool, c: nat, k: Ctrl)
    requires ValidConfig(cfg) && |ctrls| == cfg.channels && Matched(cfg, m, ctrls, isWrite)
    requires c < |ctrls| && multiset(OwedList(ctrls[c])) == multiset(OwedList(k))
    ensures Matched(cfg, m, ctrls[c := k], isWrite)
  {
    hide GetChannel, OwedList;
    forall a: nat { CountSame(OwedList(ctrls[c]), OwedList(k), a, isWrite); }
    hide CountIn;
  }

  lemma RoutedMore(cfg: Config, ctrls: seq<Ctrl>, c: nat, k: Ctrl, e: Ticket)
    requires ValidConfig(cfg) && |ctrls| == cfg.channels && Routed(cfg, ctrls) && c < |ctrls|
    requires GetChannel(cfg, e.addr) == c
    requires multiset(OwedList(k)) == multiset(OwedList(ctrls[c]) + [e])
    ensures Routed(cfg, ctrls[c := k])
  {
    hide GetChannel, OwedList;
    forall x | x in OwedList(k) ensures GetChannel(cfg, x.addr) == c {
      assert x in multiset(OwedList(k));
      assert x in OwedList(ctrls[c]) + [e];
    }
  }

  lemma RoutedLess(cfg: Config, ctrls: seq<Ctrl>, c: nat, k: Ctrl)
    requires ValidConfig(cfg) && |ctrls| == cfg.channels && Routed(cfg, ctrls) && c < |ctrls|
    requires multiset(OwedList(k)) <= multiset(OwedList(ctrls[c]))
    ensures Routed(cfg, ctrls[c := k])
  {
    hide GetChannel, OwedList;
    forall x | x in OwedList(k) ensures GetChannel(cfg, x.addr) == c {
      assert x in multiset(OwedList(k));
      assert x in multiset(OwedList(ctrls[c]));
    }
  }

  // ---------------------------------------------------------------- what each controller step does to the list

  lemma TicketsSnoc(ts: seq<Transaction>, t: Transaction)
    ensures Tickets(ts + [t]) == Tickets(ts) + [Ticketed(t)]
  {
  }

  lemma AddOwed(cfg: Config, k: Ctrl, addr: nat, isWrite: bool)
    ensures multiset(OwedList(AddTransaction(cfg, k, addr, isWrite))) ==
        multiset(OwedList(k) + [Ticket(addr, isWrite, k.clk)])
  {
    var t := Transaction(addr, isWrite, k.clk, 0);
    var k' := AddTransaction(cfg, k, addr, isWrite);
    var done := t.(complete := k.clk + 1);
    TicketsSnoc(k.pendingRd, t);
    TicketsSnoc(k.returnQ, done);
    var e := Ticket(addr, isWrite, k.clk);
    assert Ticketed(t) == e && Ticketed(done) == e;
    AddPlace(cfg, k, addr, isWrite);
    hide AddTransaction, Tickets, Has;
    OneMore(Tickets(k.pendingRd), Tickets(k.returnQ), e);
  }

  lemma OneMore(a: seq<Ticket>, b: seq<Ticket>, e: Ticket)
    ensures multiset((a + [e]) + b) == multiset(a + b + [e]) && multiset(a + (b + [e])) == multiset(a + b + [e])
  {
    assert a + (b + [e]) == a + b + [e];
  }

  lemma ReturnOwed(k: Ctrl, clk: int)
    ensures var (k', r) := ReturnDoneTrans(k, clk);
      match r case None => k' == k case Some(t) => multiset(OwedList(k)) == multiset(OwedList(k') + [Ticketed(t)])
  {
    var n := FirstDone(k.returnQ, clk);
    if n < |k.returnQ| {
      TicketsRemoved(k.returnQ, n);
      var q, q', e := Tickets(k.returnQ), Tickets(Removed(k.returnQ, n)), Ticketed(k.returnQ[n]);
      WithoutOne(q, n);
      hide Tickets, Removed;
      OneMore(Tickets(k.pendingRd), q', e);
      assert multiset(Tickets(k.pendingRd) + q) == multiset(Tickets(k.pendingRd)) + multiset(q);
    }
  }

  lemma TicketsRemoved(ts: seq<Transaction>, n: int)
    requires 0 <= n < |ts|
    ensures Tickets(Removed(ts, n)) == Tickets(ts)[..n] + Tickets(ts)[n + 1..]
  {
  }

  lemma TickKeepsAccounts(cfg: Config, k: Ctrl)
    requires Runs.Inv(cfg, k)
    ensures var r := Runs.Step(cfg, k, Runs.Tick);
      r.Some? && r.value.accepted == k.accepted && r.value.returned == k.returned
  {
    Runs.TickInv(cfg, k);
    var k1 := RefreshTick(cfg, k);
    hide Runs.Inv;
    IssueAccounts(cfg, k1);
    ScheduleAccounts(cfg, IssueStep(cfg, k1).value);
    hide IssueStep, ScheduleTransaction;
  }

  lemma IssueAccounts(cfg: Config, k: Ctrl)
    requires Shapely(cfg, k)
    ensures IssueStep(cfg, k).Some? ==>
        IssueStep(cfg, k).value.accepted == k.accepted && IssueStep(cfg, k).value.returned == k.returned
  {
    hide Choose, Has, Completed, Matching, Others, EraseOne;
  }

  lemma ScheduleAccounts(cfg: Config, k: Ctrl)
    requires AddressMap.ValidMapping(cfg)
    ensures var k' := ScheduleTransaction(cfg, k); k'.accepted == k.accepted && k'.returned == k.returned
  {
    hide TransToCommand, Has, FirstAccepted, Draining, AddressMap.ValidMapping;
  }

  lemma TickOwed(cfg: Config, k: Ctrl)
    requires Runs.Inv(cfg, k)
    ensures var r := Runs.Step(cfg, k, Runs.Tick);
      r.Some? && Runs.Inv(cfg, r.value) && multiset(OwedList(r.value)) == multiset(OwedList(k))
  {
    Runs.TickInv(cfg, k);
    TickKeepsAccounts(cfg, k);
    var k' := Runs.Step(cfg, k, Runs.Tick).value;
    hide Runs.Step;
    AllOwed(cfg, k);
    AllOwed(cfg, k');
    assert multiset(OwedList(k)) == multiset(k.accepted) - k.returned;
  }

  lemma AllOwed(cfg: Config, k: Ctrl)
    requires Runs.Inv(cfg, k)
    ensures multiset(OwedList(k)) == multiset(k.accepted) - k.returned
  {
    hide Device, RefreshProofs.InOrder, Placed, Sides, OneEach, SingleWrites, Ordered;
    assert NoneLost(k);
    hide Runs.Inv, Tickets;
    assert multiset(OwedList(k)) == multiset(Tickets(k.pendingRd)) + multiset(Tickets(k.returnQ));
  }

  // ---------------------------------------------------------------- every operation keeps the invariant

  predicate SameInFlight(f: F.Front, f': F.Front) { f'.inReads == f.inReads && f'.inWrites == f.inWrites }

  lemma ReadInFlight(g: Geometry, f: F.Front, i: F.Inputs)
    requires g.Valid() && F.Sized(i.ar)
    ensures SameInFlight(f, F.ReadTick(g, f, i))
  {
    hide F.Accept;
  }

  lemma DriveInFlight(f: F.Front, i: F.Inputs)
    ensures SameInFlight(f, F.DriveTick(f, i))
  {
  }

  lemma AddressInFlight(g: Geometry, f: F.Front, i: F.Inputs)
    requires g.Valid() && F.Sized(i.aw)
    ensures SameInFlight(f, F.AddressTick(g, f, i))
  {
    hide F.Accept;
  }

  lemma DataInFlight(f: F.Front, i: F.Inputs)
    ensures SameInFlight(f, F.DataTick(f, i))
  {
    hide F.LastBeat, F.MiddleBeat;
    if f.openWrites != [] && f.openWrites[0] < |f.wbursts| { BeatInFlight(f); }
  }

  lemma BeatInFlight(f: F.Front)
    requires f.openWrites != [] && f.openWrites[0] < |f.wbursts|
    ensures SameInFlight(f, F.LastBeat(f)) && SameInFlight(f, F.MiddleBeat(f))
  {
    hide F.BeatTaken;
  }

  lemma TickInFlight(g: Geometry, f: F.Front, i: F.Inputs)
    requires g.Valid() && F.Sized(i.ar) && F.Sized(i.aw)
    ensures SameInFlight(f, F.Tick(g, f, i))
  {
    hide F.ReadTick, F.DriveTick, F.AddressTick, F.DataTick;
    var f1 := F.ReadTick(g, f, i);
    var f2 := F.DriveTick(f1, i);
    ReadInFlight(g, f, i);
    DriveInFlight(f1, i);
    AddressInFlight(g, f2, i);
    DataInFlight(F.AddressTick(g, f2, i), i);
  }

  lemma AxiKeeps(cfg: Config, bus: int, s: System, i: F.Inputs)
    requires SystemInv(cfg, bus, s) && F.Sized(i.ar) && F.Sized(i.aw)
    ensures !F.Starved(s.front, i) && SystemInv(cfg, bus, s.(front := F.Tick(GeometryOf(cfg, bus), s.front, i)))
  {
    hide ValidConfig, CtrlsOk, Routed, FW.FrontInv, F.Tick;
    FW.TickKeeps(GeometryOf(cfg, bus), s.front, i);
    TickInFlight(GeometryOf(cfg, bus), s.front, i);
    hide Matched;
  }

  lemma CtrlsChange(cfg: Config, ctrls: seq<Ctrl>, c: nat, k: Ctrl)
    requires CtrlsOk(cfg, ctrls) && Runs.Inv(cfg, k) && c < |ctrls|
    ensures CtrlsOk(cfg, ctrls[c := k])
  {
    hide Runs.Inv;
  }

  /** A request at `addr` reaches its channel's controller. */
  lemma AddedKeeps(cfg: Config, ctrls: seq<Ctrl>, addr: nat, isWrite: bool)
    requires ValidConfig(cfg) && |ctrls| == cfg.channels && CtrlsOk(cfg, ctrls) && Routed(cfg, ctrls)
    requires WillAcceptTransaction(cfg, ctrls[GetChannel(cfg, addr)], isWrite)
    ensures CtrlsOk(cfg, Added(cfg, ctrls, addr, isWrite)) && Routed(cfg, Added(cfg, ctrls, addr, isWrite))
  {
    var c := GetChannel(cfg, addr);
    hide Routed, GetChannel;
    assert Runs.Inv(cfg, ctrls[c]);
    Runs.OtherInv(cfg, ctrls[c], Runs.Add(addr, isWrite));
    hide Runs.Inv, ValidConfig;
    AddOwed(cfg, ctrls[c], addr, isWrite);
    hide AddTransaction, OwedList;
    CtrlsChange(cfg, ctrls, c, AddTransaction(cfg, ctrls[c], addr, isWrite));
    RoutedMore(cfg, ctrls, c, AddTransaction(cfg, ctrls[c], addr, isWrite), Ticket(addr, isWrite, ctrls[c].clk));
  }

  lemma AddedMatched(cfg: Config, m: map<int, seq<nat>>, ctrls: seq<Ctrl>, addr: nat, isWrite: bool, i: nat, w: bool)
    requires ValidConfig(cfg) && |ctrls| == cfg.channels && Matched(cfg, m, ctrls, w)
    ensures Matched(cfg, if w == isWrite then F.PushAt(m, addr, i) else m, Added(cfg, ctrls, addr, isWrite), w)
  {
    var c := GetChannel(cfg, addr);
    hide Matched, GetChannel, ValidConfig;
    AddOwed(cfg, ctrls[c], addr, isWrite);
    hide AddTransaction, OwedList;
    MatchedMore(cfg, m, ctrls, w, addr, i, AddTransaction(cfg, ctrls[c], addr, isWrite),
                Ticket(addr, isWrite, ctrls[c].clk));
  }

  lemma SendReadKeeps(cfg: Config, bus: int, s: System)
    requires SystemInv(cfg, bus, s)
    ensures var r := Step(cfg, bus, s, SendRead); r.Some? && SystemInv(cfg, bus, r.value)
  {
    hide ValidConfig, CtrlsOk, Routed, Matched, FP.ReadInv, FW.WriteInv, F.Eligible;
    var g, f := GeometryOf(cfg, bus), s.front;
    ReadTable(g, f);
    var accept := Accepting(cfg, s, false);
    FP.TryReadKeeps(g, f, accept);
    var p := F.FirstEligible(g, f, accept, 0);
    if p < |f.readQ| {
      var a := F.NextAddr(g, f.rbursts[f.readQ[p]]);
      assert a in accept by { EligibleAddr(g, f, p, accept); }
      AddedKeeps(cfg, s.ctrls, a, false);
      AddedMatched(cfg, f.inReads, s.ctrls, a, false, f.readQ[p], false);
      AddedMatched(cfg, f.inWrites, s.ctrls, a, false, f.readQ[p], true);
      hide F.NextAddr;
      ReadIssueWrites(g, f, p);
    }
  }

  lemma ReadTable(g: Geometry, f: F.Front)
    requires FP.ReadInv(g, f)
    ensures F.InTable(f.readQ, f.rbursts)
  {
    hide FP.BurstsOk, FP.EntriesOk, FP.OnceOk, FP.PendingOk, FP.BeatsOk, FP.OrderOk, FP.IssuedOk, FP.QueueOk;
    FP.QueueTable(f.rbursts, f.readQ);
  }

  lemma EligibleAddr(g: Geometry, f: F.Front, p: int, accept: iset<int>)
    requires F.InTable(f.readQ, f.rbursts) && 0 <= p < |f.readQ| && F.Eligible(g, f, p, accept)
    ensures F.NextAddr(g, f.rbursts[f.readQ[p]]) in accept
  {
  }

  lemma ReadIssueWrites(g: Geometry, f: F.Front, p: int)
    requires F.InTable(f.readQ, f.rbursts) && 0 <= p < |f.readQ|
    requires FW.WriteInv(f) && FW.RoomOk(f)
    ensures var f' := F.IssueRead(g, f, p);
      && FW.WriteInv(f') && FW.RoomOk(f') && f'.inWrites == f.inWrites
      && f'.inReads == F.PushAt(f.inReads, F.NextAddr(g, f.rbursts[f.readQ[p]]), f.readQ[p])
  {
    hide FW.OpenOk, FW.CountersOk, FW.RepliesOk;
    FW.WriteFrame(f, F.IssueRead(g, f, p));
  }

  lemma SendWriteKeeps(cfg: Config, bus: int, s: System)
    requires SystemInv(cfg, bus, s)
    ensures var r := Step(cfg, bus, s, SendWrite); r.Some? && SystemInv(cfg, bus, r.value)
  {
    hide ValidConfig, CtrlsOk, Routed, Matched, FP.ReadInv, FW.WriteInv;
    var g, f := GeometryOf(cfg, bus), s.front;
    var accept := Accepting(cfg, s, true);
    FW.TryWriteKeeps(g, f, accept);
    var p := F.FirstTaken(g, f, accept, 0);
    if p < |f.writeQ| {
      var a := F.NextAddr(g, f.wbursts[f.writeQ[p]]);
      assert a in accept;
      AddedKeeps(cfg, s.ctrls, a, true);
      AddedMatched(cfg, f.inReads, s.ctrls, a, true, f.writeQ[p], false);
      AddedMatched(cfg, f.inWrites, s.ctrls, a, true, f.writeQ[p], true);
      hide F.NextAddr;
      WriteIssueReads(g, f, p);
    }
  }

  lemma WriteIssueReads(g: Geometry, f: F.Front, p: int)
    requires F.InTable(f.writeQ, f.wbursts) && 0 <= p < |f.writeQ|
    requires FP.ReadInv(g, f) && FW.RoomOk(f)
    ensures var f' := F.IssueWrite(g, f, p);
      && FP.ReadInv(g, f') && FW.RoomOk(f') && f'.inReads == f.inReads
      && f'.inWrites == F.PushAt(f.inWrites, F.NextAddr(g, f.wbursts[f.writeQ[p]]), f.writeQ[p])
  {
    hide FP.BurstsOk, FP.EntriesOk, FP.OnceOk, FP.PendingOk, FP.BeatsOk, FP.OrderOk, FP.IssuedOk, FP.QueueOk;
    FW.ReadFrame(g, f, F.IssueWrite(g, f, p));
  }

  /** A finished transaction is one that DRAM owes, so a burst waits for it. */
  lemma ReturnedOwed(cfg: Config, ctrls: seq<Ctrl>, c: nat, t: Transaction)
    requires ValidConfig(cfg) && |ctrls| == cfg.channels && CtrlsOk(cfg, ctrls) && Routed(cfg, ctrls) && c < |ctrls|
    requires ReturnDoneTrans(ctrls[c], ctrls[c].clk).1 == Some(t)
    ensures var k := ReturnDoneTrans(ctrls[c], ctrls[c].clk).0;
      && multiset(OwedList(ctrls[c])) == multiset(OwedList(k) + [Ticketed(t)]) && GetChannel(cfg, t.addr) == c
      && CtrlsOk(cfg, ctrls[c := k]) && Routed(cfg, ctrls[c := k])
  {
    hide GetChannel, ValidConfig;
    assert Runs.Inv(cfg, ctrls[c]);
    Runs.OtherInv(cfg, ctrls[c], Runs.Return);
    hide Runs.Inv;
    ReturnOwed(ctrls[c], ctrls[c].clk);
    var k := ReturnDoneTrans(ctrls[c], ctrls[c].clk).0;
    hide ReturnDoneTrans, OwedList;
    CtrlsChange(cfg, ctrls, c, k);
    var e := Ticketed(t);
    assert e in multiset(OwedList(k) + [e]);
    assert e in OwedList(ctrls[c]);
    assert multiset(OwedList(k) + [e]) == multiset(OwedList(k)) + multiset{e};
    RoutedLess(cfg, ctrls, c, k);
  }

  /** Channel `c` answers a read, and it is the last answer of a burst that does not fit its flags. */
  ghost predicate Overrun(cfg: Config, bus: int, s: System, c: nat) {
    && c < |s.ctrls| && ReturnDoneTrans(s.ctrls[c], s.ctrls[c].clk).1.Some?
    && var t := ReturnDoneTrans(s.ctrls[c], s.ctrls[c].clk).1.value;
      !t.isWrite && OverrunAt(GeometryOf(cfg, bus), s.front, t.addr)
  }

  ghost predicate OverrunAt(g: Geometry, f: F.Front, addr: int) {
    var q := F.InFlight(f.inReads, addr);
    q != [] && q[0] < |f.rbursts| && Grouped(g, f.rbursts[q[0]]) && FP.Overruns(g, f.rbursts[q[0]], addr)
  }

  lemma CompleteKeeps(cfg: Config, bus: int, s: System, c: nat)
    requires SystemInv(cfg, bus, s) && c < |s.ctrls|
    ensures var r := Step(cfg, bus, s, Complete(c));
      (r.None? <==> Overrun(cfg, bus, s, c)) && (r.Some? ==> SystemInv(cfg, bus, r.value))
  {
    hide OverrunAt, ValidConfig, CtrlsOk, Routed, Matched, FP.ReadInv, FW.WriteInv, ReturnDoneTrans, GetChannel,
         OwedList;
    var g, f := GeometryOf(cfg, bus), s.front;
    var (k, r) := ReturnDoneTrans(s.ctrls[c], s.ctrls[c].clk);
    if r.Some? {
      var t := r.value;
      ReturnedOwed(cfg, s.ctrls, c, t);
      MatchedLess(cfg, f.inReads, s.ctrls, false, c, k, Ticketed(t));
      MatchedLess(cfg, f.inWrites, s.ctrls, true, c, k, Ticketed(t));
      if t.isWrite { WriteBack(g, f, t.addr); } else { ReadBack(g, f, t.addr); }
    }
  }

  lemma ReadBack(g: Geometry, f: F.Front, addr: int)
    requires FW.FrontInv(g, f) && g.Valid() && F.InFlight(f.inReads, addr) != []
    ensures var r := F.ReadCallback(g, f, addr);
      && (r.None? <==> OverrunAt(g, f, addr))
      && (r.Some? ==>
            FW.FrontInv(g, r.value) && r.value.inWrites == f.inWrites && r.value.inReads == F.PopAt(f.inReads, addr))
  {
    hide FP.ReadInv, FW.OpenOk, FW.CountersOk, FW.RepliesOk, Callback, FP.Overruns, Grouped;
    FP.ReadCallbackKeeps(g, f, addr);
    if F.ReadCallback(g, f, addr).Some? { FW.WriteFrame(f, F.ReadCallback(g, f, addr).value); }
  }

  lemma WriteBack(g: Geometry, f: F.Front, addr: int)
    requires FW.FrontInv(g, f) && F.InFlight(f.inWrites, addr) != []
    ensures var r := F.WriteCallback(f, addr);
      && r.Some? && FW.FrontInv(g, r.value)
      && r.value.inReads == f.inReads && r.value.inWrites == F.PopAt(f.inWrites, addr)
  {
    hide FW.WriteInv, F.WriteCallback, FP.BurstsOk, FP.EntriesOk, FP.OnceOk, FP.PendingOk, FP.BeatsOk, FP.OrderOk,
         FP.IssuedOk, FP.QueueOk;
    FW.WriteCallbackKeeps(f, addr);
    WriteBackReads(f, addr);
    FW.ReadFrame(g, f, F.WriteCallback(f, addr).value);
  }

  lemma WriteBackReads(f: F.Front, addr: int)
    requires F.InFlight(f.inWrites, addr) != [] && F.WriteCallback(f, addr).Some?
    ensures var f' := F.WriteCallback(f, addr).value;
      && FW.SameReads(f, f') && (FP.SignalsOk(f) ==> FP.SignalsOk(f')) && (FW.RoomOk(f) ==> FW.RoomOk(f'))
      && f'.inWrites == F.PopAt(f.inWrites, addr)
  {
    hide F.Answer;
    var i := F.InFlight(f.inWrites, addr)[0];
    var t := f.wbursts[i].(beats := f.wbursts[i].beats - 1);
    AnswerReads(f.(wbursts := f.wbursts[i := t], inWrites := F.PopAt(f.inWrites, addr)), i);
  }

  lemma AnswerReads(f: F.Front, i: nat)
    requires i < |f.wbursts|
    ensures F.Answer(f, i) == f.(toEnqueue := F.Answer(f, i).toEnqueue, past := F.Answer(f, i).past)
    ensures var old_ := f.past; F.Answer(f, i).past == old_.(unanswered := F.Answer(f, i).past.unanswered)
  {
  }

  lemma CtrlAt(cfg: Config, ctrls: seq<Ctrl>, c: nat)
    requires CtrlsOk(cfg, ctrls) && c < |ctrls|
    ensures Runs.Inv(cfg, ctrls[c])
  {
    hide Runs.Inv;
  }

  lemma CycleKeeps(cfg: Config, bus: int, s: System, c: nat)
    requires SystemInv(cfg, bus, s) && c < |s.ctrls|
    ensures var r := Step(cfg, bus, s, Cycle(c)); r.Some? && SystemInv(cfg, bus, r.value)
  {
    hide ValidConfig, CtrlsOk, Routed, Matched, FW.FrontInv, OwedList, Runs.Inv, Runs.Step;
    CtrlAt(cfg, s.ctrls, c);
    TickOwed(cfg, s.ctrls[c]);
    var k := Runs.Step(cfg, s.ctrls[c], Runs.Tick).value;
    CtrlsChange(cfg, s.ctrls, c, k);
    RoutedLess(cfg, s.ctrls, c, k);
    MatchedSame(cfg, s.front.inReads, s.ctrls, false, c, k);
    MatchedSame(cfg, s.front.inWrites, s.ctrls, true, c, k);
  }

  /** Every operation goes through and keeps the invariant, but for the last answer of a burst that
      does not fit its flags. */
  lemma StepKeeps(cfg: Config, bus: int, s: System, op: Op)
    requires SystemInv(cfg, bus, s)
    ensures ValidConfig(cfg) && GeometryOf(cfg, bus).Valid() && |s.ctrls| == cfg.channels
    ensures var r := Step(cfg, bus, s, op);
      (r.None? <==> op.Complete? && Overrun(cfg, bus, s, op.c)) && (r.Some? ==> SystemInv(cfg, bus, r.value))
  {
    hide OverrunAt, CtrlsOk, Routed, Matched, FW.FrontInv, F.Tick, ReturnDoneTrans, Runs.Step, F.IssueRead,
         F.IssueWrite;
    match op
    case Axi(i) => if F.Sized(i.ar) && F.Sized(i.aw) { AxiKeeps(cfg, bus, s, i); }
    case SendRead => SendReadKeeps(cfg, bus, s);
    case SendWrite => SendWriteKeeps(cfg, bus, s);
    case Complete(c) => if c < |s.ctrls| { CompleteKeeps(cfg, bus, s, c); }
    case Cycle(c) => if c < |s.ctrls| { CycleKeeps(cfg, bus, s, c); }
  }

  // ---------------------------------------------------------------- runs

  ghost function Run(cfg: Config, bus: int, ops: seq<Op>): Option<System>
    requires ValidConfig(cfg) && GeometryOf(cfg, bus).Valid()
  {
    if ops == [] then Some(System(F.Initial(), seq(cfg.channels, _ => Initial(cfg))))
    else
      match Run(cfg, bus, ops[..|ops| - 1])
      case None => None
      case Some(s) => if |s.ctrls| == cfg.channels then Step(cfg, bus, s, ops[|ops| - 1]) else None
  }

  lemma InitialSystem(cfg: Config, bus: int)
    requires ValidConfig(cfg) && GeometryOf(cfg, bus).Valid()
    ensures SystemInv(cfg, bus, System(F.Initial(), seq(cfg.channels, _ => Initial(cfg))))
  {
    hide Runs.Inv, FW.FrontInv, Initial, OwedList, GetChannel, AddressMap.ValidMapping, RefreshInterval, Matched,
         Routed;
    Runs.InitialInv(cfg);
    FW.InitialFront(GeometryOf(cfg, bus));
    InitialOwes(cfg);
    NothingOwed(cfg, seq(cfg.channels, _ => Initial(cfg)));
  }

  lemma NothingOwed(cfg: Config, ctrls: seq<Ctrl>)
    requires ValidConfig(cfg) && |ctrls| == cfg.channels && forall c :: 0 <= c < |ctrls| ==> OwedList(ctrls[c]) == []
    ensures Matched(cfg, map[], ctrls, false) && Matched(cfg, map[], ctrls, true) && Routed(cfg, ctrls)
  {
    hide ValidConfig, OwedList, GetChannel;
  }

  lemma InitialOwes(cfg: Config)
    requires ValidConfig(cfg)
    ensures OwedList(Initial(cfg)) == []
  {
    hide ValidConfig;
  }

  /** From the AXI ports to the DRAM commands and back, in every run: no exit is reached, nothing is
      taken from an empty queue, every callback finds a burst waiting at its address, and front end
      and controllers stay sound. The one way a run can fail is the last answer of a read burst that
      does not fit its flags, and it then always fails. */
  lemma {:induction false} EndToEnd(cfg: Config, bus: int, ops: seq<Op>)
    requires ValidConfig(cfg) && GeometryOf(cfg, bus).Valid()
    ensures Run(cfg, bus, ops).Some? ==> SystemInv(cfg, bus, Run(cfg, bus, ops).value)
    ensures Run(cfg, bus, ops).None? <==>
      exists n ::
        && 0 <= n < |ops| && Run(cfg, bus, ops[..n]).Some? && ops[n].Complete?
        && Overrun(cfg, bus, Run(cfg, bus, ops[..n]).value, ops[n].c)
    decreases |ops|
  {
    hide SystemInv, Step, ValidConfig, Initial, F.Initial, Overrun;
    if ops == [] {
      InitialSystem(cfg, bus);
    } else {
      var last := |ops| - 1;
      var before := ops[..last];
      EndToEnd(cfg, bus, before);
      if Run(cfg, bus, before).Some? { StepKeeps(cfg, bus, Run(cfg, bus, before).value, ops[last]); }
      forall n | 0 <= n < last ensures before[..n] == ops[..n] && before[n] == ops[n] { }
    }
  }

  // ---------------------------------------------------------------- runs whose reads fit

  ghost predicate AllFit(g: Geometry, rb: seq<Burst>)
    requires g.Valid()
  {
    forall i :: 0 <= i < |rb| ==> Fits(g, rb[i])
  }

  /** The read offered, if any, fits its flags. */
  predicate FittingOp(cfg: Config, bus: int, op: Op)
    requires GeometryOf(cfg, bus).Valid()
  {
    op.Axi? && F.Sized(op.i.ar) && op.i.ar.Some? ==>
        Fits(GeometryOf(cfg, bus), F.Accept(GeometryOf(cfg, bus), op.i.ar.value, false))
  }

  lemma FitsAt(g: Geometry, rb: seq<Burst>, i: nat, t: Burst)
    requires g.Valid() && AllFit(g, rb) && i < |rb|
    requires t.len == rb[i].len && t.size == rb[i].size && |t.retrieved| == |rb[i].retrieved|
    ensures AllFit(g, rb[i := t])
  {
    SameFit(g, rb[i], t);
    hide Fits;
  }

  lemma CallbackFits(g: Geometry, f: F.Front, addr: int)
    requires FP.ReadInv(g, f) && g.Valid() && AllFit(g, f.rbursts) && F.InFlight(f.inReads, addr) != []
    ensures var r := F.ReadCallback(g, f, addr); r.Some? ==> AllFit(g, r.value.rbursts)
  {
    hide Callback, UpToDate, Back, FP.QueueOk, FP.EntriesOk, FP.OnceOk, FP.PendingOk, FP.BeatsOk, FP.OrderOk,
         FP.IssuedOk, FP.BurstsOk, AllFit;
    var k := FP.CallbackFacts(g, f.rbursts, f.inReads, addr);
    var i := F.InFlight(f.inReads, addr)[0];
    FitsAt(g, f.rbursts, i, Callback(g, f.rbursts[i], addr).t);
  }

  lemma TickFits(g: Geometry, f: F.Front, i: F.Inputs)
    requires g.Valid() && F.Sized(i.ar) && F.Sized(i.aw) && AllFit(g, f.rbursts)
    requires i.ar.Some? ==> Fits(g, F.Accept(g, i.ar.value, false))
    ensures AllFit(g, F.Tick(g, f, i).rbursts)
  {
    hide F.ReadTick, F.DriveTick, F.AddressTick, F.DataTick, Fits;
    var f1 := F.ReadTick(g, f, i);
    var f2 := F.DriveTick(f1, i);
    FW.DriveReads(f1, i);
    FW.AddressReads(g, f2, i);
    FW.DataReads(F.AddressTick(g, f2, i), i);
    OfferFits(g, f, i);
  }

  lemma OfferFits(g: Geometry, f: F.Front, i: F.Inputs)
    requires g.Valid() && F.Sized(i.ar) && AllFit(g, f.rbursts)
    requires i.ar.Some? ==> Fits(g, F.Accept(g, i.ar.value, false))
    ensures AllFit(g, F.ReadTick(g, f, i).rbursts)
  {
    hide F.Accept, Fits;
  }

  lemma WriteFits(f: F.Front, addr: int)
    requires F.InFlight(f.inWrites, addr) != []
    ensures var r := F.WriteCallback(f, addr); r.Some? ==> r.value.rbursts == f.rbursts
  {
    hide F.Answer;
    if F.WriteCallback(f, addr).Some? { WriteBackReads(f, addr); }
  }

  /** The step goes through and leaves every read burst with room for its answers. */
  ghost predicate StepsFitting(cfg: Config, bus: int, s: System, op: Op) {
    && ValidConfig(cfg) && GeometryOf(cfg, bus).Valid() && |s.ctrls| == cfg.channels
    && var r := Step(cfg, bus, s, op); r.Some? && AllFit(GeometryOf(cfg, bus), r.value.front.rbursts)
  }

  lemma SendReadFits(cfg: Config, bus: int, s: System)
    requires SystemInv(cfg, bus, s) && AllFit(GeometryOf(cfg, bus), s.front.rbursts)
    ensures StepsFitting(cfg, bus, s, SendRead)
  {
    hide CtrlsOk, Routed, Matched, FP.ReadInv, FW.WriteInv, AllFit, ValidConfig, GetChannel, OwedList, F.FirstEligible,
         F.Eligible;
    StepKeeps(cfg, bus, s, SendRead);
    var g, f := GeometryOf(cfg, bus), s.front;
    ReadTable(g, f);
    var p := F.FirstEligible(g, f, Accepting(cfg, s, false), 0);
    if p < |f.readQ| { FitsAt(g, f.rbursts, f.readQ[p], FP.Sent(f.rbursts[f.readQ[p]])); }
  }

  lemma StepFits(cfg: Config, bus: int, s: System, op: Op)
    requires SystemInv(cfg, bus, s) && AllFit(GeometryOf(cfg, bus), s.front.rbursts) && FittingOp(cfg, bus, op)
    ensures StepsFitting(cfg, bus, s, op)
  {
    hide SystemInv, AllFit, F.Tick, Runs.Step, ReturnDoneTrans, FittingOp, ValidConfig, F.ReadCallback, F.WriteCallback,
         Overrun, F.FirstEligible, F.FirstTaken, F.InTable;
    StepKeeps(cfg, bus, s, op);
    var g, f := GeometryOf(cfg, bus), s.front;
    match op
    case Axi(i) => if F.Sized(i.ar) && F.Sized(i.aw) { FittingIs(cfg, bus, op); TickFits(g, f, i); }
    case SendRead => SendReadFits(cfg, bus, s);
    case SendWrite =>
    case Complete(c) => if c < |s.ctrls| { CompleteFits(cfg, bus, s, c); }
    case Cycle(c) =>
  }

  lemma FittingIs(cfg: Config, bus: int, op: Op)
    requires GeometryOf(cfg, bus).Valid() && FittingOp(cfg, bus, op) && op.Axi? && F.Sized(op.i.ar)
    ensures op.i.ar.Some? ==> Fits(GeometryOf(cfg, bus), F.Accept(GeometryOf(cfg, bus), op.i.ar.value, false))
  {
  }

  lemma CompleteFits(cfg: Config, bus: int, s: System, c: nat)
    requires SystemInv(cfg, bus, s) && AllFit(GeometryOf(cfg, bus), s.front.rbursts) && c < |s.ctrls|
    ensures !Overrun(cfg, bus, s, c)
    ensures var r := Step(cfg, bus, s, Complete(c)); r.Some? ==> AllFit(GeometryOf(cfg, bus), r.value.front.rbursts)
  {
    hide ValidConfig, CtrlsOk, Routed, Matched, FP.ReadInv, FW.WriteInv, ReturnDoneTrans, GetChannel, OwedList,
         F.ReadCallback, F.WriteCallback;
    var g, f := GeometryOf(cfg, bus), s.front;
    var (k, r) := ReturnDoneTrans(s.ctrls[c], s.ctrls[c].clk);
    if r.Some? {
      var t := r.value;
      ReturnedOwed(cfg, s.ctrls, c, t);
      MatchedLess(cfg, f.inReads, s.ctrls, false, c, k, Ticketed(t));
      MatchedLess(cfg, f.inWrites, s.ctrls, true, c, k, Ticketed(t));
      if t.isWrite { WriteFits(f, t.addr); } else { CallbackFits(g, f, t.addr); }
    }
  }

  /** A run in which every read offered fits its flags never fails. */
  lemma {:induction false} FittingRuns(cfg: Config, bus: int, ops: seq<Op>)
    requires ValidConfig(cfg) && GeometryOf(cfg, bus).Valid()
    requires forall i :: 0 <= i < |ops| ==> FittingOp(cfg, bus, ops[i])
    ensures Run(cfg, bus, ops).Some? && AllFit(GeometryOf(cfg, bus), Run(cfg, bus, ops).value.front.rbursts)
    decreases |ops|
  {
    if ops != [] {
      var before := ops[..|ops| - 1];
      FittingRuns(cfg, bus, before);
      EndToEnd(cfg, bus, before);
      assert |Run(cfg, bus, before).value.ctrls| == cfg.channels;
      hide SystemInv, Step, ValidConfig, AllFit, FittingOp;
      StepFits(cfg, bus, Run(cfg, bus, before).value, ops[|ops| - 1]);
    }
  }

  // ---------------------------------------------------------------- what it means on the ports

  lemma {:induction false} OfAppend(x: seq<F.Tagged>, y: seq<F.Tagged>, i: nat)
    ensures FP.Of(x + y, i) == FP.Of(x, i) + FP.Of(y, i)
    decreases |y|
  {
    if y == [] {
      assert x + y == x;
    } else {
      var n := |y| - 1;
      assert (x + y)[..|x + y| - 1] == x + y[..n];
      OfAppend(x, y[..n], i);
    }
  }

  /** In every run the beats of read burst i taken on R are its beats 0, 1, 2, ... in order, with
      address base + p * size and only its final beat last; together with those waiting they are
      exactly the beats whose data is complete from the front, and all of them once every request
      of the burst is back. */
  lemma BeatsInOrder(cfg: Config, bus: int, ops: seq<Op>, i: nat)
    requires ValidConfig(cfg) && GeometryOf(cfg, bus).Valid()
    requires Run(cfg, bus, ops).Some? && i < |Run(cfg, bus, ops).value.front.rbursts|
    ensures var g, f := GeometryOf(cfg, bus), Run(cfg, bus, ops).value.front; var t := f.rbursts[i];
      && (forall p :: 0 <= p < |FP.Of(f.past.taken, i)| ==> FP.Of(f.past.taken, i)[p] == BeatAt(g, t, p))
      && |FP.Of(f.past.taken, i)| + |FP.Of(f.beats, i)| == t.beats && UpToDate(g, t) && Grouped(g, t)
      && ((forall k :: 0 <= k < t.enqueues ==> Back(g, t, k)) ==> t.beats == Beats(g, t))
  {
    hide Run;
    EndToEnd(cfg, bus, ops);
    var g, f := GeometryOf(cfg, bus), Run(cfg, bus, ops).value.front;
    ReadBurst(g, f, i);
    hide SystemInv, FP.Of, UpToDate, Grouped;
    OfAppend(f.past.taken, f.beats, i);
    var x := FP.Of(f.past.taken, i);
    assert forall p :: 0 <= p < |x| ==> x[p] == (x + FP.Of(f.beats, i))[p];
    if forall k :: 0 <= k < f.rbursts[i].enqueues ==> Back(g, f.rbursts[i], k) { WholeBurst(g, f.rbursts[i]); }
  }

  lemma ReadBurst(g: Geometry, f: F.Front, i: nat)
    requires FW.FrontInv(g, f) && i < |f.rbursts|
    ensures g.Valid() && FP.Sound(g, f.rbursts[i]) && FP.BeatsOf(g, f.rbursts[i], FP.Of(f.past.taken + f.beats, i))
  {
    hide FW.WriteInv, FP.EntriesOk, FP.OnceOk, FP.PendingOk, FP.OrderOk, FP.IssuedOk, FP.QueueOk, FP.Of, FP.BeatsOf,
         FP.Sound;
  }

  /** In every run, of two requests for reads with one AXI id the one of the older read, or the
      earlier one of the same read, was issued first. */
  lemma SameIdInOrder(cfg: Config, bus: int, ops: seq<Op>, p: int, q: int)
    requires ValidConfig(cfg) && GeometryOf(cfg, bus).Valid()
    requires Run(cfg, bus, ops).Some? && 0 <= p < q < |Run(cfg, bus, ops).value.front.past.issued|
    ensures var f := Run(cfg, bus, ops).value.front;
      && f.past.issued[p].tx < |f.rbursts| && f.past.issued[q].tx < |f.rbursts|
      && (f.rbursts[f.past.issued[p].tx].id == f.rbursts[f.past.issued[q].tx].id ==>
            FP.Before(f.past.issued[p], f.past.issued[q]))
  {
    hide Run;
    EndToEnd(cfg, bus, ops);
    hide CtrlsOk, Routed, Matched, ValidConfig, FW.WriteInv, FP.BurstsOk, FP.EntriesOk, FP.OnceOk, FP.PendingOk,
         FP.BeatsOk, FP.QueueOk;
  }

  /** In every run each write gets at most one reply, with its id and not before its last data beat;
      the writes counted in flight are those taking data, those with their data and no reply, and
      those whose reply has not been taken; and they are never more than 32. */
  lemma WriteReplies(cfg: Config, bus: int, ops: seq<Op>)
    requires ValidConfig(cfg) && GeometryOf(cfg, bus).Valid()
    requires Run(cfg, bus, ops).Some?
    ensures var f := Run(cfg, bus, ops).value.front; var rs := FW.Replies(f);
      && (forall p :: 0 <= p < |rs| ==>
            rs[p].tx < |f.wbursts| && rs[p].id == f.wbursts[rs[p].tx].id && rs[p].tx !in f.openWrites)
      && (forall p, q :: 0 <= p < q < |rs| ==> rs[p].tx != rs[q].tx)
      && f.inFlight == |f.openWrites| + |f.past.unanswered| + |f.toEnqueue| + |f.sendIds|
      && 0 <= f.inFlight <= F.MAX_WRITES
      && (forall i :: i in f.past.unanswered ==> i < |f.wbursts| && i !in f.openWrites && forall p :: 0 <= p < |rs| ==>
            rs[p].tx != i)
  {
    hide Run;
    EndToEnd(cfg, bus, ops);
    hide CtrlsOk, Routed, Matched, ValidConfig, FP.ReadInv, FW.OpenOk;
  }
}
