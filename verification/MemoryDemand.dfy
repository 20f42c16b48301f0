/** What DRAM is asked for over whole runs of the memory system: for every burst taken on AR or AW its
    requests, each once and in order, and nothing else. */
module MemoryDemand {
  import opened Common
  import opened Controllers
  import opened ControllerProofs
  import Runs
  import AddressMap
  import opened MemoryBursts
  import opened MemorySystem
  import opened Options
  import F = MemoryFront
  import FP = MemoryFrontProofs
  import FW = MemoryWriteProofs
  import MR = MemoryRequests
  import MP = MemoryPorts

  /** Requests for one address in a list. */
  function CountAddr(all: seq<F.Request>, a: int): nat {
    if all == [] then 0 else CountAddr(all[..|all| - 1], a) + if all[|all| - 1].addr == a then 1 else 0
  }

  function Asked(f: F.Front, isWrite: bool): seq<F.Request> { if isWrite then f.past.sent else f.past.issued }

  /** At every address DRAM has accepted as many transactions of each kind as there were requests. */
  ghost predicate Counted(cfg: Config, all: seq<F.Request>, ctrls: seq<Ctrl>, isWrite: bool)
    requires ValidConfig(cfg) && |ctrls| == cfg.channels
  {
    forall a: nat :: CountIn(ctrls[GetChannel(cfg, a)].accepted, a, isWrite) == CountAddr(all, a)
  }

  /** Every channel has accepted only its own addresses. */
  ghost predicate Local(cfg: Config, ctrls: seq<Ctrl>)
    requires ValidConfig(cfg) && |ctrls| == cfg.channels
  {
    forall c, e :: 0 <= c < |ctrls| && e in ctrls[c].accepted ==> GetChannel(cfg, e.addr) == c
  }

  ghost predicate DemandInv(cfg: Config, bus: int, s: System) {
    && ValidConfig(cfg) && GeometryOf(cfg, bus).Valid() && |s.ctrls| == cfg.channels
    && MR.HistoryInv(GeometryOf(cfg, bus), s.front) && Local(cfg, s.ctrls)
    && Counted(cfg, s.front.past.issued, s.ctrls, false) && Counted(cfg, s.front.past.sent, s.ctrls, true)
  }

  // ---------------------------------------------------------------- a request reaches its channel

  lemma CountSnoc(all: seq<F.Request>, x: F.Request, a: int)
    ensures CountAddr(all + [x], a) == CountAddr(all, a) + if x.addr == a then 1 else 0
  {
    assert (all + [x])[..|all|] == all;
  }

  lemma TicketSnoc(ts: seq<Ticket>, e: Ticket, a: int, w: bool)
    ensures CountIn(ts + [e], a, w) == CountIn(ts, a, w) + if e.addr == a && e.isWrite == w then 1 else 0
  {
    assert (ts + [e])[..|ts|] == ts;
  }

  lemma AddedCounted(cfg: Config, all: seq<F.Request>, ctrls: seq<Ctrl>, w: bool, addr: nat, isWrite: bool,
                     x: F.Request)
    requires ValidConfig(cfg) && |ctrls| == cfg.channels && Counted(cfg, all, ctrls, w) && x.addr == addr
    ensures Counted(cfg, if w == isWrite then all + [x] else all, Added(cfg, ctrls, addr, isWrite), w)
  {
    hide GetChannel, ValidConfig;
    var c := GetChannel(cfg, addr);
    var e := Ticket(addr, isWrite, ctrls[c].clk);
    AddPlace(cfg, ctrls[c], addr, isWrite);
    var ctrls' := Added(cfg, ctrls, addr, isWrite);
    hide AddTransaction, CountIn, CountAddr;
    forall a: nat ensures CountIn(ctrls'[GetChannel(cfg, a)].accepted, a, w) ==
        CountAddr(if w == isWrite then all + [x] else all, a) {
      TicketSnoc(ctrls[c].accepted, e, a, w);
      CountSnoc(all, x, a);
    }
  }

  lemma AddedLocal(cfg: Config, ctrls: seq<Ctrl>, addr: nat, isWrite: bool)
    requires ValidConfig(cfg) && |ctrls| == cfg.channels && Local(cfg, ctrls)
    ensures Local(cfg, Added(cfg, ctrls, addr, isWrite))
  {
    hide GetChannel, ValidConfig;
    AddPlace(cfg, ctrls[GetChannel(cfg, addr)], addr, isWrite);
    hide AddTransaction;
  }

  /** Controller `c` changes to `k`, which has accepted the same. */
  lemma SameDemand(cfg: Config, all: seq<F.Request>, ctrls: seq<Ctrl>, w: bool, c: nat, k: Ctrl)
    requires ValidConfig(cfg) && |ctrls| == cfg.channels && Counted(cfg, all, ctrls, w) && Local(cfg, ctrls)
    requires c < |ctrls| && k.accepted == ctrls[c].accepted
    ensures Counted(cfg, all, ctrls[c := k], w) && Local(cfg, ctrls[c := k])
  {
    hide GetChannel, ValidConfig, CountIn, CountAddr;
  }

  // ---------------------------------------------------------------- every operation

  ghost predicate StaysDemanded(cfg: Config, bus: int, s: System, op: Op) {
    && ValidConfig(cfg) && GeometryOf(cfg, bus).Valid() && |s.ctrls| == cfg.channels
    && var r := Step(cfg, bus, s, op); r.Some? ==> DemandInv(cfg, bus, r.value)
  }

  lemma SendReadDemand(cfg: Config, bus: int, s: System)
    requires SystemInv(cfg, bus, s) && DemandInv(cfg, bus, s)
    ensures StaysDemanded(cfg, bus, s, SendRead)
  {
    hide ValidConfig, CtrlsOk, Routed, Matched, FP.ReadInv, FW.WriteInv, MR.HistoryInv, F.Eligible, Counted, Local,
         F.NextAddr;
    var g, f := GeometryOf(cfg, bus), s.front;
    ReadTable(g, f);
    var accept := Accepting(cfg, s, false);
    var p := F.FirstEligible(g, f, accept, 0);
    if p < |f.readQ| {
      var i := f.readQ[p];
      var a := F.NextAddr(g, f.rbursts[i]);
      assert a in accept by { EligibleAddr(g, f, p, accept); }
      var x := F.Request(i, f.rbursts[i].enqueued, a);
      MR.IssueReadHistory(g, f, p);
      AddedCounted(cfg, f.past.issued, s.ctrls, false, a, false, x);
      AddedCounted(cfg, f.past.sent, s.ctrls, true, a, false, x);
      AddedLocal(cfg, s.ctrls, a, false);
      hide Added;
    }
  }

  lemma SendWriteDemand(cfg: Config, bus: int, s: System)
    requires SystemInv(cfg, bus, s) && DemandInv(cfg, bus, s)
    ensures StaysDemanded(cfg, bus, s, SendWrite)
  {
    hide ValidConfig, CtrlsOk, Routed, Matched, FP.ReadInv, FW.WriteInv, MR.HistoryInv, Counted, Local, F.NextAddr;
    var g, f := GeometryOf(cfg, bus), s.front;
    var accept := Accepting(cfg, s, true);
    if F.InTable(f.writeQ, f.wbursts) {
      var p := F.FirstTaken(g, f, accept, 0);
      if p < |f.writeQ| {
        var i := f.writeQ[p];
        var a := F.NextAddr(g, f.wbursts[i]);
        assert a in accept;
        var x := F.Request(i, f.wbursts[i].enqueued, a);
        MR.IssueWriteHistory(g, f, p);
        AddedCounted(cfg, f.past.issued, s.ctrls, false, a, true, x);
        AddedCounted(cfg, f.past.sent, s.ctrls, true, a, true, x);
        AddedLocal(cfg, s.ctrls, a, true);
        hide Added;
      }
    }
  }

  lemma ReturnAccepted(k: Ctrl, clk: int)
    ensures ReturnDoneTrans(k, clk).0.accepted == k.accepted
  {
    hide FirstDone;
  }

  lemma CallbackDemand(g: Geometry, f: F.Front, addr: int, isWrite: bool)
    requires FW.FrontInv(g, f) && g.Valid() && MR.HistoryInv(g, f)
    requires F.InFlight(if isWrite then f.inWrites else f.inReads, addr) != []
    ensures var r := if isWrite then F.WriteCallback(f, addr) else F.ReadCallback(g, f, addr);
      r.Some? ==> MR.HistoryInv(g, r.value) && Asked(r.value, true) == Asked(f, true)
                  && Asked(r.value, false) == Asked(f, false)
  {
    hide MR.HistoryInv, FP.ReadInv, FW.WriteInv, Callback;
    if isWrite { MR.WriteCallbackHistory(g, f, addr); } else { MR.ReadCallbackHistory(g, f, addr); }
  }

  lemma CompleteDemand(cfg: Config, bus: int, s: System, c: nat)
    requires SystemInv(cfg, bus, s) && DemandInv(cfg, bus, s) && c < |s.ctrls|
    ensures StaysDemanded(cfg, bus, s, Complete(c))
  {
    hide ValidConfig, CtrlsOk, Routed, Matched, FW.FrontInv, ReturnDoneTrans, GetChannel, OwedList, MR.HistoryInv,
         Counted, Local, F.ReadCallback, F.WriteCallback;
    var g, f := GeometryOf(cfg, bus), s.front;
    var (k, r) := ReturnDoneTrans(s.ctrls[c], s.ctrls[c].clk);
    if r.Some? {
      var t := r.value;
      ReturnedOwed(cfg, s.ctrls, c, t);
      MatchedLess(cfg, f.inReads, s.ctrls, false, c, k, Ticketed(t));
      MatchedLess(cfg, f.inWrites, s.ctrls, true, c, k, Ticketed(t));
      CallbackDemand(g, f, t.addr, t.isWrite);
      ReturnAccepted(s.ctrls[c], s.ctrls[c].clk);
      SameDemand(cfg, f.past.issued, s.ctrls, false, c, k);
      SameDemand(cfg, f.past.sent, s.ctrls, true, c, k);
    }
  }

  lemma CycleDemand(cfg: Config, bus: int, s: System, c: nat)
    requires SystemInv(cfg, bus, s) && DemandInv(cfg, bus, s) && c < |s.ctrls|
    ensures StaysDemanded(cfg, bus, s, Cycle(c))
  {
    hide ValidConfig, CtrlsOk, Routed, Matched, FW.FrontInv, Runs.Inv, Runs.Step, MR.HistoryInv, Counted, Local;
    CtrlAt(cfg, s.ctrls, c);
    TickKeepsAccounts(cfg, s.ctrls[c]);
    var k := Runs.Step(cfg, s.ctrls[c], Runs.Tick).value;
    SameDemand(cfg, s.front.past.issued, s.ctrls, false, c, k);
    SameDemand(cfg, s.front.past.sent, s.ctrls, true, c, k);
  }

  predicate SameAsked(f: F.Front, f': F.Front) { f'.past.issued == f.past.issued && f'.past.sent == f.past.sent }

  lemma BeatAsked(f: F.Front)
    requires f.openWrites != [] && f.openWrites[0] < |f.wbursts|
    ensures SameAsked(f, F.LastBeat(f)) && SameAsked(f, F.MiddleBeat(f))
  {
    hide F.BeatTaken;
  }

  lemma DataAsked(f: F.Front, i: F.Inputs)
    ensures SameAsked(f, F.DataTick(f, i))
  {
    hide F.LastBeat, F.MiddleBeat;
    if f.openWrites != [] && f.openWrites[0] < |f.wbursts| { BeatAsked(f); }
  }

  lemma OtherAsked(g: Geometry, f: F.Front, i: F.Inputs)
    requires g.Valid() && F.Sized(i.ar) && F.Sized(i.aw)
    ensures SameAsked(f, F.ReadTick(g, f, i)) && SameAsked(f, F.DriveTick(f, i)) && SameAsked(f, F.AddressTick(g, f, i))
  {
    hide F.Accept;
  }

  /** An AXI clock sends nothing to DRAM. */
  lemma TickAsked(g: Geometry, f: F.Front, i: F.Inputs)
    requires g.Valid() && F.Sized(i.ar) && F.Sized(i.aw)
    ensures SameAsked(f, F.Tick(g, f, i))
  {
    hide F.ReadTick, F.DriveTick, F.AddressTick, F.DataTick;
    var f1 := F.ReadTick(g, f, i);
    var f2 := F.DriveTick(f1, i);
    OtherAsked(g, f, i);
    OtherAsked(g, f1, i);
    OtherAsked(g, f2, i);
    DataAsked(F.AddressTick(g, f2, i), i);
  }

  lemma StepDemand(cfg: Config, bus: int, s: System, op: Op)
    requires SystemInv(cfg, bus, s) && DemandInv(cfg, bus, s)
    ensures StaysDemanded(cfg, bus, s, op)
  {
    hide SystemInv, ValidConfig, MR.HistoryInv, Counted, Local, F.Tick, ReturnDoneTrans, Runs.Step, F.IssueRead,
         F.IssueWrite;
    match op
    case Axi(i) =>
      if F.Sized(i.ar) && F.Sized(i.aw) {
        MR.TickHistory(GeometryOf(cfg, bus), s.front, i);
        TickAsked(GeometryOf(cfg, bus), s.front, i);
      }
    case SendRead => SendReadDemand(cfg, bus, s);
    case SendWrite => SendWriteDemand(cfg, bus, s);
    case Complete(c) => if c < |s.ctrls| { CompleteDemand(cfg, bus, s, c); }
    case Cycle(c) => if c < |s.ctrls| { CycleDemand(cfg, bus, s, c); }
  }

  lemma InitialDemand(cfg: Config, bus: int)
    requires ValidConfig(cfg) && GeometryOf(cfg, bus).Valid()
    ensures DemandInv(cfg, bus, System(F.Initial(), seq(cfg.channels, _ => Initial(cfg))))
  {
    MR.InitialHistory(GeometryOf(cfg, bus));
    InitialAccepted(cfg);
    hide MR.HistoryInv, Initial, GetChannel;
  }

  lemma InitialAccepted(cfg: Config)
    requires ValidConfig(cfg)
    ensures Initial(cfg).accepted == []
  {
    hide ValidConfig;
  }

  lemma {:induction false} RunDemand(cfg: Config, bus: int, ops: seq<Op>)
    requires ValidConfig(cfg) && GeometryOf(cfg, bus).Valid()
    ensures Run(cfg, bus, ops).Some? ==> DemandInv(cfg, bus, Run(cfg, bus, ops).value)
    decreases |ops|
  {
    hide SystemInv, Step, ValidConfig, Initial, F.Initial, DemandInv;
    if ops == [] {
      InitialDemand(cfg, bus);
    } else {
      var before := ops[..|ops| - 1];
      RunDemand(cfg, bus, before);
      EndToEnd(cfg, bus, before);
      if Run(cfg, bus, before).Some? { StepDemand(cfg, bus, Run(cfg, bus, before).value, ops[|ops| - 1]); }
    }
  }

  // ---------------------------------------------------------------- what it means

  /** The requests of a burst so far: numbers 0, 1, ..., each for the bytes of a DRAM burst from where its
      offer starts. */
  predicate InSequence(cfg: Config, rs: seq<F.Request>, i: nat, o: F.Offer) {
    forall k :: 0 <= k < |rs| ==> rs[k] == F.Request(i, k, o.fpga + k * (cfg.busWidth / 8 * cfg.BL))
  }

  lemma FirstInSequence(cfg: Config, bus: int, t: Burst, o: F.Offer, i: nat, n: nat)
    requires t.fpga == o.fpga
    ensures InSequence(cfg, MR.FirstRequests(GeometryOf(cfg, bus), t, i, n), i, o)
    ensures |MR.FirstRequests(GeometryOf(cfg, bus), t, i, n)| == n
  {
  }

  /** How many requests a burst of an offer takes. */
  function Whole(cfg: Config, o: F.Offer): int
    requires cfg.busWidth / 8 * cfg.BL != 0
  {
    var n := o.len * o.size / (cfg.busWidth / 8 * cfg.BL);
    if n == 0 then 1 else n
  }

  /** What a run has asked of DRAM for one burst: its first requests in sequence, not more than it takes. */
  ghost predicate Demands(cfg: Config, rs: seq<F.Request>, t: Burst, i: nat, o: F.Offer) {
    && InSequence(cfg, rs, i, o) && |rs| == t.enqueued
    && cfg.busWidth / 8 * cfg.BL != 0 && t.enqueues == Whole(cfg, o) && t.enqueued <= t.enqueues
    && t.id == o.id && t.size == o.size && t.len == o.len
  }

  lemma BurstDemands(cfg: Config, bus: int, table: seq<Burst>, all: seq<F.Request>, i: nat, o: F.Offer, fixed: bool)
    requires GeometryOf(cfg, bus).Valid() && i < |table| && MR.RequestsOk(GeometryOf(cfg, bus), table, all)
    requires MR.MadeFrom(GeometryOf(cfg, bus), table[i], o, fixed)
    ensures Demands(cfg, MR.RequestsOf(all, i), table[i], i, o)
  {
    hide MR.RequestsOf, InSequence, MR.FirstRequests;
    FirstInSequence(cfg, bus, table[i], o, i, table[i].enqueued);
  }

  /** In every run the i-th write taken on AW has asked DRAM for its first requests, each once, in order
      and at the addresses of its offer. While it takes data it has asked for none; from then on it is in
      the queue exactly as long as requests are left. */
  lemma WriteRequests(cfg: Config, bus: int, ops: seq<Op>, i: nat)
    requires ValidConfig(cfg) && GeometryOf(cfg, bus).Valid() && Run(cfg, bus, ops).Some?
    requires i < |Run(cfg, bus, ops).value.front.wbursts|
    ensures var f := Run(cfg, bus, ops).value.front; var t := f.wbursts[i];
      && i < |f.past.awOffers| && Demands(cfg, MR.RequestsOf(f.past.sent, i), t, i, f.past.awOffers[i])
      && (i in f.openWrites ==> t.enqueued == 0)
      && (i in f.writeQ <==> i !in f.openWrites && t.enqueued < t.enqueues)
  {
    hide Run, ValidConfig;
    RunDemand(cfg, bus, ops);
    var f := Run(cfg, bus, ops).value.front;
    WriteHistory(GeometryOf(cfg, bus), f, i);
    hide DemandInv, Demands;
    BurstDemands(cfg, bus, f.wbursts, f.past.sent, i, f.past.awOffers[i], f.past.awOffers[i].fixed);
  }

  lemma WriteHistory(g: Geometry, f: F.Front, i: nat)
    requires MR.HistoryInv(g, f) && i < |f.wbursts|
    ensures g.Valid() && i < |f.past.awOffers| && MR.RequestsOk(g, f.wbursts, f.past.sent)
    ensures MR.MadeFrom(g, f.wbursts[i], f.past.awOffers[i], f.past.awOffers[i].fixed)
    ensures i in f.openWrites ==> f.wbursts[i].enqueued == 0
    ensures i in f.writeQ <==> i !in f.openWrites && f.wbursts[i].enqueued < f.wbursts[i].enqueues
  {
    hide MR.RequestsOk, MR.StoredOk, MR.ReadTable, MR.MadeFrom;
    OpenRange(f.wbursts, f.openWrites, i);
  }

  lemma OpenRange(wb: seq<Burst>, open: seq<nat>, i: nat)
    requires MR.OpenLast(wb, open) && i < |wb|
    ensures i in open <==> |wb| - |open| <= i
  {
    if |wb| - |open| <= i { assert open[i - (|wb| - |open|)] == i; }
  }

  /** Likewise the i-th read taken on AR. */
  lemma ReadRequests(cfg: Config, bus: int, ops: seq<Op>, i: nat)
    requires ValidConfig(cfg) && GeometryOf(cfg, bus).Valid() && Run(cfg, bus, ops).Some?
    requires i < |Run(cfg, bus, ops).value.front.rbursts|
    ensures var f := Run(cfg, bus, ops).value.front; var t := f.rbursts[i];
      && i < |f.past.arOffers| && Demands(cfg, MR.RequestsOf(f.past.issued, i), t, i, f.past.arOffers[i])
      && t.base == f.past.arOffers[i].addr
      && (i in f.readQ <==> t.enqueued < t.enqueues)
  {
    hide Run, ValidConfig;
    RunDemand(cfg, bus, ops);
    EndToEnd(cfg, bus, ops);
    var f := Run(cfg, bus, ops).value.front;
    ReadHistory(GeometryOf(cfg, bus), f, i);
    hide DemandInv, SystemInv, Demands;
    BurstDemands(cfg, bus, f.rbursts, f.past.issued, i, f.past.arOffers[i], false);
  }

  lemma ReadHistory(g: Geometry, f: F.Front, i: nat)
    requires MR.HistoryInv(g, f) && FW.FrontInv(g, f) && i < |f.rbursts|
    ensures g.Valid() && i < |f.past.arOffers| && MR.RequestsOk(g, f.rbursts, f.past.issued)
    ensures MR.MadeFrom(g, f.rbursts[i], f.past.arOffers[i], false)
    ensures i in f.readQ <==> f.rbursts[i].enqueued < f.rbursts[i].enqueues
  {
    hide MR.RequestsOk, MR.StoredOk, MR.WriteTable, MR.OpenLast, MR.WriteQueueOk, MR.MadeFrom, FW.WriteInv, FP.BurstsOk,
         FP.EntriesOk, FP.OnceOk, FP.PendingOk, FP.BeatsOk, FP.OrderOk, FP.IssuedOk;
  }

  /** In every run DRAM has accepted at each address, in the channel of that address, as many reads and
      writes as bursts have sent requests for it, and no other channel has accepted any. */
  lemma DramDemand(cfg: Config, bus: int, ops: seq<Op>, a: nat, c: nat)
    requires ValidConfig(cfg) && GeometryOf(cfg, bus).Valid() && Run(cfg, bus, ops).Some?
    ensures AddressMap.ValidMapping(cfg)
    ensures var s := Run(cfg, bus, ops).value;
      && |s.ctrls| == cfg.channels
      && (c < |s.ctrls| ==>
            var here := c == AddressMap.AddressMapping(cfg, a).channel;
            && CountIn(s.ctrls[c].accepted, a, true) == (if here then CountAddr(s.front.past.sent, a) else 0)
            && CountIn(s.ctrls[c].accepted, a, false) == (if here then CountAddr(s.front.past.issued, a) else 0))
  {
    hide Run, MR.HistoryInv;
    RunDemand(cfg, bus, ops);
    assert GetChannel(cfg, a) == AddressMap.AddressMapping(cfg, a).channel;
    hide GetChannel, AddressMap.AddressMapping;
    var s := Run(cfg, bus, ops).value;
    if c < |s.ctrls| && c != GetChannel(cfg, a) {
      NoneThere(s.ctrls[c].accepted, a, true);
      NoneThere(s.ctrls[c].accepted, a, false);
    }
  }

  lemma {:induction false} NoneThere(ts: seq<Ticket>, a: nat, w: bool)
    requires forall e :: e in ts ==> e.addr != a
    ensures CountIn(ts, a, w) == 0
  {
    if ts != [] {
      assert ts[|ts| - 1] in ts;
      NoneThere(ts[..|ts| - 1], a, w);
    }
  }

  /** In every run the W beats of the i-th write are stored one after the other from the address of its
      offer, or all there if it is fixed, and writes take their beats in the order of AW. */
  lemma WriteData(cfg: Config, bus: int, ops: seq<Op>, i: nat)
    requires ValidConfig(cfg) && GeometryOf(cfg, bus).Valid() && Run(cfg, bus, ops).Some?
    requires i < |Run(cfg, bus, ops).value.front.wbursts|
    ensures var f := Run(cfg, bus, ops).value.front;
      && i < |f.past.awOffers|
      && (var o, at := f.past.awOffers[i], MR.StoredOf(f.past.stored, i);
          forall p :: 0 <= p < |at| ==> at[p] == if o.fixed then o.addr else o.addr + p * o.size)
      && (forall p, q :: 0 <= p < q < |f.past.stored| ==> f.past.stored[p].tx <= f.past.stored[q].tx)
  {
    hide Run, ValidConfig, MR.StoredOf;
    RunDemand(cfg, bus, ops);
    var f := Run(cfg, bus, ops).value.front;
    WriteHistory(GeometryOf(cfg, bus), f, i);
    StoredHistory(GeometryOf(cfg, bus), f, i);
    hide DemandInv;
  }

  lemma StoredHistory(g: Geometry, f: F.Front, i: nat)
    requires MR.HistoryInv(g, f) && i < |f.wbursts|
    ensures MR.StoredBurst(f.wbursts[i], MR.StoredOf(f.past.stored, i))
    ensures forall p, q :: 0 <= p < q < |f.past.stored| ==> f.past.stored[p].tx <= f.past.stored[q].tx
  {
    hide MR.RequestsOk, MR.ReadTable, MR.WriteTable, MR.OpenLast, MR.WriteQueueOk, MR.StoredBurst, MR.StoredOf;
  }

  // ---------------------------------------------------------------- the five channels

  predicate SamePorts(f: F.Front, f': F.Front) {
    f'.openWrites == f.openWrites && f'.awReady == f.awReady && f'.wReady == f.wReady
  }

  lemma CallbackPorts(g: Geometry, f: F.Front, addr: int)
    requires g.Valid()
    ensures F.ReadCallback(g, f, addr).Some? ==> SamePorts(f, F.ReadCallback(g, f, addr).value)
    ensures F.WriteCallback(f, addr).Some? ==> SamePorts(f, F.WriteCallback(f, addr).value)
  {
    hide Callback;
  }

  lemma StepPorts(cfg: Config, bus: int, s: System, op: Op)
    requires SystemInv(cfg, bus, s) && MP.PortsInv(s.front)
    ensures ValidConfig(cfg) && GeometryOf(cfg, bus).Valid() && |s.ctrls| == cfg.channels
    ensures var r := Step(cfg, bus, s, op); r.Some? ==> MP.PortsInv(r.value.front)
  {
    hide ValidConfig, CtrlsOk, Routed, Matched, FW.FrontInv, F.Tick, Runs.Step, ReturnDoneTrans, F.ReadCallback,
         F.WriteCallback, F.FirstEligible, F.FirstTaken, GetChannel;
    match op
    case Axi(i) => if F.Sized(i.ar) && F.Sized(i.aw) { MP.TickPorts(GeometryOf(cfg, bus), s.front, i); }
    case SendRead =>
    case SendWrite =>
    case Complete(c) =>
      if c < |s.ctrls| {
        var r := ReturnDoneTrans(s.ctrls[c], s.ctrls[c].clk).1;
        if r.Some? { CallbackPorts(GeometryOf(cfg, bus), s.front, r.value.addr); }
      }
    case Cycle(c) =>
  }

  lemma {:induction false} RunPorts(cfg: Config, bus: int, ops: seq<Op>)
    requires ValidConfig(cfg) && GeometryOf(cfg, bus).Valid()
    ensures Run(cfg, bus, ops).Some? ==> MP.PortsInv(Run(cfg, bus, ops).value.front)
    decreases |ops|
  {
    hide SystemInv, Step, ValidConfig, Initial;
    if ops != [] {
      var before := ops[..|ops| - 1];
      RunPorts(cfg, bus, before);
      EndToEnd(cfg, bus, before);
      if Run(cfg, bus, before).Some? { StepPorts(cfg, bus, Run(cfg, bus, before).value, ops[|ops| - 1]); }
    }
  }

  /** In every run an AXI clock hands over on each of the five channels exactly what was shown and taken; AR
      is ready while fewer than 40 reads have requests left, AW while fewer than 32 writes have no reply
      taken, and W whenever a write is open. */
  lemma ChannelHandshakes(cfg: Config, bus: int, ops: seq<Op>, i: F.Inputs)
    requires ValidConfig(cfg) && GeometryOf(cfg, bus).Valid() && Run(cfg, bus, ops).Some?
    requires F.Sized(i.ar) && F.Sized(i.aw)
    ensures Run(cfg, bus, ops + [Axi(i)]).Some?
    ensures MP.Handshakes(Run(cfg, bus, ops).value.front, Run(cfg, bus, ops + [Axi(i)]).value.front, i)
    ensures Run(cfg, bus, ops).value.front.openWrites != [] ==> Run(cfg, bus, ops).value.front.wReady
  {
    EndToEnd(cfg, bus, ops);
    RunPorts(cfg, bus, ops);
    assert (ops + [Axi(i)])[..|ops|] == ops;
    hide ValidConfig, CtrlsOk, Routed, Matched, FW.FrontInv, F.Tick, Initial, MP.Handshakes;
    var s := Run(cfg, bus, ops).value;
    AxiKeeps(cfg, bus, s, i);
    MP.TickPorts(GeometryOf(cfg, bus), s.front, i);
  }

  // ---------------------------------------------------------------- a quirk of the read side

  /** A read whose first address DRAM does not take sends nothing, though DRAM would take its next request. */
  lemma FirstAddressStalls(cfg: Config, bus: int, s: System)
    requires ValidConfig(cfg) && GeometryOf(cfg, bus).Valid() && |s.ctrls| == cfg.channels
    requires F.InTable(s.front.readQ, s.front.rbursts)
    requires forall p :: 0 <= p < |s.front.readQ| ==>
        s.front.rbursts[s.front.readQ[p]].fpga !in Accepting(cfg, s, false)
    ensures Step(cfg, bus, s, SendRead) == Some(s)
  {
    hide ValidConfig, GetChannel, Accepting, F.NextAddr;
    var p := F.FirstEligible(GeometryOf(cfg, bus), s.front, Accepting(cfg, s, false), 0);
  }
}
