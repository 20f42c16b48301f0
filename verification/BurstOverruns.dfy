/** A read that does not fit its flags makes a run of the memory system fail: it is accepted, its
    requests are answered one after the other, and the last answer leaves the flags. */
module BurstOverruns {
  import opened Common
  import opened Controllers
  import opened MemoryBursts
  import opened MemorySystem
  import opened Options
  import F = MemoryFront
  import FP = MemoryFrontProofs
  import FW = MemoryWriteProofs
  import Arith
  import Channels
  import Runs
  import Progress
  import Scenes
  import LoneRead
  import RefreshGaps
  import RuntimeMemory

  /** The reads that a run offers are among `offers`. */
  ghost predicate Offers(offers: iset<F.Offer>, ops: seq<Op>) {
    forall i :: 0 <= i < |ops| && ops[i].Axi? && ops[i].i.ar.Some? ==> ops[i].i.ar.value in offers
  }

  ghost predicate Reached(cfg: Config, bus: int, offers: iset<F.Offer>, s: System) {
    && ValidConfig(cfg) && GeometryOf(cfg, bus).Valid()
    && exists ops :: Offers(offers, ops) && Run(cfg, bus, ops) == Some(s)
  }

  /** Some run with these offers fails. */
  ghost predicate CanFail(cfg: Config, bus: int, offers: iset<F.Offer>)
    requires ValidConfig(cfg) && GeometryOf(cfg, bus).Valid()
  {
    exists ops :: Offers(offers, ops) && Run(cfg, bus, ops).None?
  }

  lemma ReachedOk(cfg: Config, bus: int, offers: iset<F.Offer>, s: System)
    requires Reached(cfg, bus, offers, s)
    ensures ValidConfig(cfg) && GeometryOf(cfg, bus).Valid() && SystemInv(cfg, bus, s) && |s.ctrls| == cfg.channels
  {
    hide ValidConfig, CtrlsOk, Routed, Matched, FW.FrontInv;
    var ops :| Offers(offers, ops) && Run(cfg, bus, ops) == Some(s);
    EndToEnd(cfg, bus, ops);
  }

  /** One more operation. */
  lemma Go(cfg: Config, bus: int, offers: iset<F.Offer>, s: System, op: Op)
    requires Reached(cfg, bus, offers, s) && |s.ctrls| == cfg.channels
    requires op.Axi? && op.i.ar.Some? ==> op.i.ar.value in offers
    ensures match Step(cfg, bus, s, op)
      case Some(s') => Reached(cfg, bus, offers, s')
      case None => CanFail(cfg, bus, offers)
  {
    hide ValidConfig, Step;
    var ops :| Offers(offers, ops) && Run(cfg, bus, ops) == Some(s);
    var more := ops + [op];
    assert more[..|ops|] == ops;
    assert Offers(offers, more);
    assert Run(cfg, bus, more) == Step(cfg, bus, s, op);
  }

  /** The clock of one channel runs. */
  lemma {:induction false} Clock(cfg: Config, bus: int, offers: iset<F.Offer>, s: System, c: nat, n: nat, k: Ctrl)
    requires Reached(cfg, bus, offers, s) && c < |s.ctrls| == cfg.channels
    requires Progress.Exec(cfg, s.ctrls[c], Progress.Ticks(n)) == Some(k)
    ensures Reached(cfg, bus, offers, s.(ctrls := s.ctrls[c := k]))
    decreases n
  {
    hide ValidConfig, Runs.Step, Progress.Ticks, Progress.Exec, Run, Offers;
    if n == 0 {
      LoneRead.ExecNone(cfg, s.ctrls[c]);
      assert s.ctrls[c := k] == s.ctrls;
    } else {
      Go(cfg, bus, offers, s, Cycle(c));
      FirstTick(cfg, s.ctrls[c], n - 1);
      var k1 := Runs.Step(cfg, s.ctrls[c], Runs.Tick).value;
      var s1 := s.(ctrls := s.ctrls[c := k1]);
      Progress.ExecTick(cfg, s.ctrls[c], n - 1);
      Clock(cfg, bus, offers, s1, c, n - 1, k);
      assert s1.ctrls[c := k] == s.ctrls[c := k];
    }
  }

  lemma FirstTick(cfg: Config, k: Ctrl, n: nat)
    requires ValidConfig(cfg) && Progress.Exec(cfg, k, Progress.Ticks(n + 1)).Some?
    ensures Runs.Step(cfg, k, Runs.Tick).Some?
  {
    hide ValidConfig, Runs.Step;
    assert Progress.Ticks(n + 1)[0] == Runs.Tick;
  }

  // ---------------------------------------------------------------- the read is accepted

  const IDLE := F.Inputs(false, None, false, None, None)

  /** Controllers that have nothing to do and owe nothing. */
  ghost predicate Quiet(cfg: Config, ctrls: seq<Ctrl>) {
    forall c :: 0 <= c < |ctrls| ==> QuietCtrl(cfg, ctrls[c])
  }

  ghost predicate QuietCtrl(cfg: Config, k: Ctrl) { Scenes.Reaches(cfg, k) && Scenes.Empty(k) && k.returnQ == [] }

  lemma QuietStart(cfg: Config)
    requires ValidConfig(cfg)
    ensures Quiet(cfg, seq(cfg.channels, _ => Initial(cfg)))
  {
    Scenes.ReachInitial(cfg);
    hide ValidConfig, Scenes.Reaches, Channels.InitialChannel;
  }

  /** The one read burst there is was offered as `o`; `i` of its requests have been sent, and answered. */
  ghost predicate Sent(g: Geometry, f: F.Front, o: F.Offer, i: int) {
    && g.Valid() && 0 < o.size && 0 < o.len && |f.rbursts| == 1
    && SameBurst(f.rbursts[0], F.Accept(g, o, false)) && f.rbursts[0].enqueued == i
    && f.readQ == if i < f.rbursts[0].enqueues then [0] else []
  }

  predicate SameBurst(t: Burst, t0: Burst) {
    && t.size == t0.size && t.len == t0.len && t.fpga == t0.fpga
    && t.enqueues == t0.enqueues && |t.retrieved| == |t0.retrieved|
  }

  lemma FirstReady(g: Geometry)
    requires g.Valid()
    ensures var f := F.Tick(g, F.Initial(), IDLE); f.arReady && f.rbursts == [] && f.readQ == []
    ensures !F.Starved(F.Initial(), IDLE) && !F.Starved(F.Tick(g, F.Initial(), IDLE), IDLE)
  {
  }

  lemma Accepted(g: Geometry, f: F.Front, o: F.Offer)
    requires g.Valid() && 0 < o.size && 0 < o.len && f.arReady && f.rbursts == [] && f.readQ == []
    ensures Sent(g, F.Tick(g, f, IDLE.(ar := Some(o))), o, 0)
  {
    var i := IDLE.(ar := Some(o));
    hide F.DriveTick, F.AddressTick, F.DataTick;
    var f1 := F.ReadTick(g, f, i);
    FW.DriveReads(f1, i);
    FW.AddressReads(g, F.DriveTick(f1, i), i);
    FW.DataReads(F.AddressTick(g, F.DriveTick(f1, i), i), i);
  }

  /** The system with `i` requests of the read sent and answered, and nothing else to do. */
  ghost predicate At(cfg: Config, bus: int, s: System, o: F.Offer, i: int) {
    && Reached(cfg, bus, iset{o}, s) && Quiet(cfg, s.ctrls) && Sent(GeometryOf(cfg, bus), s.front, o, i)
    && |s.ctrls| == cfg.channels
  }

  lemma Start(cfg: Config, bus: int, o: F.Offer) returns (s: System)
    requires ValidConfig(cfg) && GeometryOf(cfg, bus).Valid() && 0 < o.size && 0 < o.len
    ensures At(cfg, bus, s, o, 0)
  {
    hide ValidConfig, F.Initial, F.Tick, Sent, Initial, F.Starved, Quiet;
    ChannelsPos(cfg);
    var g, ctrls := GeometryOf(cfg, bus), seq(cfg.channels, _ => Initial(cfg));
    s := System(F.Initial(), ctrls);
    assert Offers(iset{o}, []) && Run(cfg, bus, []) == Some(s);
    FirstReady(g);
    QuietStart(cfg);
    Go(cfg, bus, iset{o}, s, Axi(IDLE));
    s := System(F.Tick(g, F.Initial(), IDLE), ctrls);
    Accepted(g, s.front, o);
    assert !F.Starved(s.front, IDLE.(ar := Some(o))) by { SameStarved(s.front, o); }
    Go(cfg, bus, iset{o}, s, Axi(IDLE.(ar := Some(o))));
    s := System(F.Tick(g, s.front, IDLE.(ar := Some(o))), ctrls);
  }

  lemma ChannelsPos(cfg: Config)
    requires ValidConfig(cfg)
    ensures 0 < cfg.channels
  {
  }

  lemma SameStarved(f: F.Front, o: F.Offer)
    ensures F.Starved(f, IDLE.(ar := Some(o))) == F.Starved(f, IDLE)
  {
  }

  // ---------------------------------------------------------------- one request and its answer

  lemma QuietAt(cfg: Config, ctrls: seq<Ctrl>, c: nat, k: Ctrl)
    requires Quiet(cfg, ctrls) && c < |ctrls| && QuietCtrl(cfg, k)
    ensures QuietCtrl(cfg, ctrls[c]) && Quiet(cfg, ctrls[c := k])
  {
    hide QuietCtrl;
  }

  /** A quiet controller takes a read. */
  lemma QuietAccepts(cfg: Config, k: Ctrl)
    requires ValidConfig(cfg) && QuietCtrl(cfg, k)
    ensures WillAcceptTransaction(cfg, k, false)
  {
    Scenes.SizedConfig(cfg);
    hide ValidConfig, Scenes.Reaches;
  }

  lemma AllAccept(cfg: Config, s: System, a: nat)
    requires ValidConfig(cfg) && |s.ctrls| == cfg.channels && Quiet(cfg, s.ctrls)
    ensures a in Accepting(cfg, s, false)
  {
    hide ValidConfig, QuietCtrl, WillAcceptTransaction;
    var c := GetChannel(cfg, a);
    assert QuietCtrl(cfg, s.ctrls[c]);
    QuietAccepts(cfg, s.ctrls[c]);
  }

  lemma RequestPos(g: Geometry, t: Burst, i: nat)
    requires g.Valid() && 0 <= t.fpga
    ensures 0 <= RequestAddr(g, t, i)
  {
    Arith.MulPos(g.ddr, g.burst);
    Arith.MulMono(0, i, g.Chunk());
  }

  /** What sending the next request comes to. */
  lemma Sends(cfg: Config, bus: int, s: System, o: F.Offer, i: nat)
    requires At(cfg, bus, s, o, i) && 0 <= o.fpga && i < s.front.rbursts[0].enqueues
    ensures ValidConfig(cfg) && GeometryOf(cfg, bus).Valid() && |s.front.rbursts| == 1
    ensures 0 <= RequestAddr(GeometryOf(cfg, bus), s.front.rbursts[0], i)
    ensures var g, a := GeometryOf(cfg, bus), RequestAddr(GeometryOf(cfg, bus), s.front.rbursts[0], i);
      && F.InTable(s.front.readQ, s.front.rbursts) && |s.front.readQ| > 0
      && Step(cfg, bus, s, SendRead) == Some(System(F.IssueRead(g, s.front, 0), Added(cfg, s.ctrls, a, false)))
  {
    hide Reached, Quiet, F.IssueRead, GetChannel, ValidConfig, F.Accept, AddTransaction;
    assert ValidConfig(cfg) by { ReachedOk(cfg, bus, iset{o}, s); }
    var g, t := GeometryOf(cfg, bus), s.front.rbursts[0];
    assert t.fpga == o.fpga by { AcceptAddr(g, o); }
    RequestPos(g, t, i);
    var a: nat := RequestAddr(g, t, i);
    AllAccept(cfg, s, t.fpga);
    AllAccept(cfg, s, a);
    assert F.Eligible(g, s.front, 0, Accepting(cfg, s, false));
  }

  lemma AcceptAddr(g: Geometry, o: F.Offer)
    requires g.Valid() && 0 < o.size && 0 < o.len
    ensures F.Accept(g, o, false).fpga == o.fpga
  {
  }

  lemma SentMore(g: Geometry, f: F.Front, o: F.Offer, i: nat)
    requires Sent(g, f, o, i) && i < f.rbursts[0].enqueues && F.InTable(f.readQ, f.rbursts)
    ensures Sent(g, F.IssueRead(g, f, 0), o, i + 1)
  {
    hide F.PushAt, F.NextAddr, F.Accept;
    assert F.Dropped([0], 0) == [];
  }

  /** An answer keeps the burst what it is. */
  lemma SentBack(g: Geometry, f: F.Front, o: F.Offer, i: int, addr: int)
    requires Sent(g, f, o, i) && FP.ReadInv(g, f) && F.ReadCallback(g, f, addr).Some?
    ensures Sent(g, F.ReadCallback(g, f, addr).value, o, i)
  {
    hide Callback, UpToDate, Back, FP.QueueOk, FP.OnceOk, FP.BeatsOk, FP.OrderOk, FP.IssuedOk, FP.BurstsOk,
         FP.EntriesOk, FP.PendingOk, F.Accept;
    var k := FP.CallbackFacts(g, f.rbursts, f.inReads, addr);
    var j := F.InFlight(f.inReads, addr)[0];
    GroupedLength(g, f.rbursts[j]);
    GroupedLength(g, Callback(g, f.rbursts[j], addr).t);
  }

  lemma GroupedLength(g: Geometry, t: Burst)
    requires Grouped(g, t)
    ensures |t.retrieved| == t.enqueues * g.burst
  {
  }

  lemma FrontReads(cfg: Config, bus: int, s: System)
    requires SystemInv(cfg, bus, s)
    ensures GeometryOf(cfg, bus).Valid() && FP.ReadInv(GeometryOf(cfg, bus), s.front)
  {
    hide ValidConfig, CtrlsOk, Routed, Matched, FP.ReadInv, FW.WriteInv;
  }

  /** A request is answered: the run fails, or the read has one more answer. */
  lemma Answers(cfg: Config, bus: int, s: System, o: F.Offer, i: int, c: nat, k: Ctrl, r: Transaction)
    returns (s': System)
    requires Reached(cfg, bus, iset{o}, s) && c < |s.ctrls| == cfg.channels && Sent(GeometryOf(cfg, bus), s.front, o, i)
    requires ReturnDoneTrans(s.ctrls[c], s.ctrls[c].clk) == (k, Some(r)) && !r.isWrite
    requires Quiet(cfg, s.ctrls[c := k])
    ensures ValidConfig(cfg) && GeometryOf(cfg, bus).Valid()
    ensures CanFail(cfg, bus, iset{o}) || At(cfg, bus, s', o, i)
  {
    hide ValidConfig, Reached, Sent, SystemInv, Quiet, ReturnDoneTrans, F.ReadCallback, CanFail;
    ReachedOk(cfg, bus, iset{o}, s);
    FrontReads(cfg, bus, s);
    Go(cfg, bus, iset{o}, s, Complete(c));
    var g := GeometryOf(cfg, bus);
    s' := s;
    var f := F.ReadCallback(g, s.front, r.addr);
    if f.Some? {
      SentBack(g, s.front, o, i, r.addr);
      s' := System(f.value, s.ctrls[c := k]);
    }
  }

  /** The next request of the read is sent in a window of its channel and answered. */
  lemma OneRequest(cfg: Config, k: nat, bus: int, s: System, o: F.Offer, i: nat) returns (s': System)
    requires At(cfg, bus, s, o, i) && LoneRead.Roomy(cfg, k) && 0 <= o.fpga && i < s.front.rbursts[0].enqueues
    ensures ValidConfig(cfg) && GeometryOf(cfg, bus).Valid()
    ensures CanFail(cfg, bus, iset{o}) || At(cfg, bus, s', o, i + 1)
  {
    hide Reached, Sent, Quiet, LoneRead.Roomy, Step, CanFail, ValidConfig, F.IssueRead, F.InTable, AddTransaction,
         ReturnDoneTrans, WillAcceptTransaction, GetChannel, Progress.Exec, RefreshInterval, Progress.ServiceTime;
    Sends(cfg, bus, s, o, i);
    var g: Geometry, a: nat := GeometryOf(cfg, bus), RequestAddr(GeometryOf(cfg, bus), s.front.rbursts[0], i);
    var c: nat := GetChannel(cfg, a);
    assert QuietCtrl(cfg, s.ctrls[c]) by { QuietOne(cfg, s.ctrls, c); }
    var n1, k1, j := LoneRead.NextWindow(cfg, k, s.ctrls[c]);
    Clock(cfg, bus, iset{o}, s, c, n1, k1);
    var s1 := s.(ctrls := s.ctrls[c := k1]);
    QuietAt(cfg, s.ctrls, c, k1);
    Sends(cfg, bus, s1, o, i);
    SentMore(g, s1.front, o, i);
    Go(cfg, bus, iset{o}, s1, SendRead);
    var s2 := System(F.IssueRead(g, s1.front, 0), Added(cfg, s1.ctrls, a, false));
    var n2, k2, k3, r := LoneRead.AnswerRead(cfg, k, k1, a, j);
    Clock(cfg, bus, iset{o}, s2, c, n2, k2);
    var s3 := s2.(ctrls := s2.ctrls[c := k2]);
    assert s3.ctrls[c := k3] == s.ctrls[c := k3];
    QuietAt(cfg, s.ctrls, c, k3);
    s' := Answers(cfg, bus, s3, o, i + 1, c, k3, r);
  }

  lemma QuietOne(cfg: Config, ctrls: seq<Ctrl>, c: nat)
    requires Quiet(cfg, ctrls) && c < |ctrls|
    ensures QuietCtrl(cfg, ctrls[c])
  {
  }

  // ---------------------------------------------------------------- all requests answered

  lemma QuietOwes(cfg: Config, k: Ctrl)
    requires QuietCtrl(cfg, k)
    ensures OwedList(k) == []
  {
    hide Scenes.Reaches;
  }

  /** With nothing owed, every request sent is back. */
  lemma AllAnswered(cfg: Config, bus: int, s: System, o: F.Offer)
    requires |s.front.rbursts| == 1 && At(cfg, bus, s, o, s.front.rbursts[0].enqueues) && 0 <= o.fpga
    ensures GeometryOf(cfg, bus).Valid() && Fits(GeometryOf(cfg, bus), s.front.rbursts[0])
  {
    var g, t := GeometryOf(cfg, bus), s.front.rbursts[0];
    hide Reached, Quiet, CtrlsOk, Routed, ValidConfig, FW.WriteInv, GetChannel, Fits, OwedList, F.Accept;
    ReachedOk(cfg, bus, iset{o}, s);
    FrontReads(cfg, bus, s);
    AcceptAddr(g, o);
    hide FP.QueueOk, FP.OnceOk, FP.BeatsOk, FP.OrderOk, FP.IssuedOk, FP.EntriesOk, Live;
    assert FP.Sound(g, t) && FP.PendingAt(g, t, 0, s.front.inReads);
    LiveGrouped(g, t);
    forall h | 0 <= h < t.enqueues ensures Back(g, t, h) {
      RequestPos(g, t, h);
      NoneInFlight(cfg, bus, s, RequestAddr(g, t, h));
    }
  }

  lemma LiveGrouped(g: Geometry, t: Burst)
    requires Live(g, t)
    ensures Grouped(g, t)
  {
  }

  lemma NoneInFlight(cfg: Config, bus: int, s: System, a: nat)
    requires SystemInv(cfg, bus, s) && Quiet(cfg, s.ctrls)
    ensures F.InFlight(s.front.inReads, a) == []
  {
    hide CtrlsOk, Routed, ValidConfig, FW.FrontInv, GetChannel, OwedList;
    var c := GetChannel(cfg, a);
    QuietOne(cfg, s.ctrls, c);
    QuietOwes(cfg, s.ctrls[c]);
    assert |F.InFlight(s.front.inReads, a)| == CountIn(OwedList(s.ctrls[c]), a, false);
  }

  /** From any point on, the answers that are missing come, and the run fails. */
  lemma {:induction false} Fails(cfg: Config, k: nat, bus: int, s: System, o: F.Offer, i: nat)
    requires At(cfg, bus, s, o, i) && LoneRead.Roomy(cfg, k) && 0 <= o.fpga && i <= s.front.rbursts[0].enqueues
    requires ValidConfig(cfg) && GeometryOf(cfg, bus).Valid()
    requires !Fits(GeometryOf(cfg, bus), F.Accept(GeometryOf(cfg, bus), o, false))
    ensures CanFail(cfg, bus, iset{o})
    decreases s.front.rbursts[0].enqueues - i
  {
    hide Reached, Quiet, LoneRead.Roomy, CanFail, ValidConfig, F.Accept, Fits;
    var g := GeometryOf(cfg, bus);
    if i == s.front.rbursts[0].enqueues {
      AllAnswered(cfg, bus, s, o);
      SameFit(g, F.Accept(g, o, false), s.front.rbursts[0]);
    } else {
      var s' := OneRequest(cfg, k, bus, s, o, i);
      if !CanFail(cfg, bus, iset{o}) { Fails(cfg, k, bus, s', o, i + 1); }
    }
  }

  /** Every read that does not fit its flags makes a run fail that offers nothing else. */
  lemma OfferFails(cfg: Config, k: nat, bus: int, o: F.Offer) returns (ops: seq<Op>)
    requires LoneRead.Roomy(cfg, k) && GeometryOf(cfg, bus).Valid() && 0 < o.size && 0 < o.len && 0 <= o.fpga
    requires !Fits(GeometryOf(cfg, bus), F.Accept(GeometryOf(cfg, bus), o, false))
    ensures ValidConfig(cfg) && Offers(iset{o}, ops) && Run(cfg, bus, ops).None?
  {
    hide LoneRead.Roomy, Sent, Fits, F.Accept, Run, Offers, ValidConfig;
    assert ValidConfig(cfg) by { RoomyConfig(cfg, k); }
    var s := Start(cfg, bus, o);
    SentSome(GeometryOf(cfg, bus), s.front, o);
    Fails(cfg, k, bus, s, o, 0);
    ops :| Offers(iset{o}, ops) && Run(cfg, bus, ops).None?;
  }

  lemma RoomyConfig(cfg: Config, k: nat)
    requires LoneRead.Roomy(cfg, k)
    ensures ValidConfig(cfg)
  {
  }

  lemma SentSome(g: Geometry, f: F.Front, o: F.Offer)
    requires Sent(g, f, o, 0)
    ensures |f.rbursts| == 1 && 0 <= f.rbursts[0].enqueues
  {
  }

  // ---------------------------------------------------------------- the exact condition

  /** Reads that AXI can carry: not empty, and to an address. */
  ghost predicate Proper(offers: iset<F.Offer>) { forall o :: o in offers ==> 0 < o.size && 0 < o.len && 0 <= o.fpga }

  ghost predicate AllFitting(g: Geometry, offers: iset<F.Offer>)
    requires g.Valid() && Proper(offers)
  {
    forall o :: o in offers ==> Fits(g, F.Accept(g, o, false))
  }

  lemma FittingOffers(cfg: Config, bus: int, offers: iset<F.Offer>, ops: seq<Op>)
    requires GeometryOf(cfg, bus).Valid() && Proper(offers) && AllFitting(GeometryOf(cfg, bus), offers)
    requires Offers(offers, ops)
    ensures forall i :: 0 <= i < |ops| ==> FittingOp(cfg, bus, ops[i])
  {
    hide Fits, F.Accept;
  }

  /** The exact condition: reads drawn from a set of offers never make a run fail, whatever writes come
      with them and however the operations interleave, if and only if each of them fits its flags. */
  lemma FittingIff(cfg: Config, k: nat, bus: int, offers: iset<F.Offer>)
    requires LoneRead.Roomy(cfg, k) && GeometryOf(cfg, bus).Valid() && Proper(offers)
    ensures ValidConfig(cfg)
    ensures !CanFail(cfg, bus, offers) <==> AllFitting(GeometryOf(cfg, bus), offers)
  {
    hide LoneRead.Roomy, ValidConfig, Fits, F.Accept, Run, FittingOp, AllFit;
    RoomyConfig(cfg, k);
    if AllFitting(GeometryOf(cfg, bus), offers) {
      forall ops | Offers(offers, ops) ensures Run(cfg, bus, ops).Some? {
        FittingOffers(cfg, bus, offers, ops);
        FittingRuns(cfg, bus, ops);
      }
    } else {
      var o :| o in offers && !Fits(GeometryOf(cfg, bus), F.Accept(GeometryOf(cfg, bus), o, false));
      var ops := OfferFails(cfg, k, bus, o);
      assert Offers(offers, ops);
    }
  }

  /** For full-width reads: longer than one DRAM request and not a whole number of them. */
  lemma FullWidthFails(cfg: Config, k: nat, bus: int, o: F.Offer) returns (ops: seq<Op>)
    requires LoneRead.Roomy(cfg, k) && GeometryOf(cfg, bus).Valid() && o.size == bus && 0 < o.len && 0 <= o.fpga
    requires var c := GeometryOf(cfg, bus).Chunk(); c != 0 && o.len * o.size >= c && o.len * o.size % c != 0
    ensures ValidConfig(cfg) && Offers(iset{o}, ops) && Run(cfg, bus, ops).None?
  {
    hide LoneRead.Roomy, Run, Offers, ValidConfig;
    var g := GeometryOf(cfg, bus);
    Arith.MulPos(g.ddr, g.burst);
    FullWidthFits(g, o.addr, o.len, false, o.id, o.fpga);
    ops := OfferFails(cfg, k, bus, o);
  }

  /** On a bus of 16 bytes a read of five transfers makes a run of it fail. */
  lemma RuntimeOverruns(o: F.Offer) returns (ops: seq<Op>)
    requires o.size == 16 && o.len == 5 && 0 <= o.fpga
    ensures ValidConfig(RefreshGaps.DDR4_3200) && GeometryOf(RefreshGaps.DDR4_3200, 16).Valid()
    ensures Offers(iset{o}, ops) && Run(RefreshGaps.DDR4_3200, 16, ops).None?
  {
    RuntimeMemory.Roomy();
    var cfg := RefreshGaps.DDR4_3200;
    var g := GeometryOf(cfg, 16);
    assert g == Geometry(16, 8, 8) && g.Valid() && g.Chunk() == 64;
    hide LoneRead.Roomy, ValidConfig, Run, Offers;
    ops := FullWidthFails(cfg, 560, 16, o);
  }
}
