/** Runs in which every access goes to one bank, followed cycle by cycle for any configuration: the
    means to show that a gap between commands that the tables do not rule out does occur. */
module Scenes {
  import opened Common
  import opened Banks
  import opened Channels
  import opened ChannelProofs
  import opened CommandQueues
  import opened QueueProofs
  import opened Controllers
  import opened ControllerProofs
  import opened RefreshProofs
  import opened Runs
  import opened Progress
  import opened Trace
  import opened Options
  import AddressMap
  import Arith

  /** Where the address 0 goes. */
  const ORIGIN := Address(0, 0, 0, 0, 0, 0)

  // ---------------------------------------------------------------- addresses with the same coordinates

  ghost predicate Goes(cfg: Config, a: nat, home: Address)
    requires AddressMap.ValidMapping(cfg)
  {
    AddressMap.AddressMapping(cfg, a) == home
  }

  /** Distance between addresses with the same coordinates. */
  function Stride(cfg: Config): nat
    requires AddressMap.ValidMapping(cfg)
  {
    AddressMap.Pow2(AddressMap.TotalWidth(cfg, cfg.mapping) + AddressMap.Shift(cfg))
  }

  lemma FieldZero(cfg: Config, i: nat, f: Field)
    requires AddressMap.ValidMapping(cfg)
    ensures AddressMap.Extract(cfg, cfg.mapping, i * AddressMap.Pow2(AddressMap.TotalWidth(cfg, cfg.mapping)), f) == 0
  {
    assert f in cfg.mapping;
    AddressMap.ExtractLow(cfg, cfg.mapping, i, 0, f);
    var p, w := AddressMap.Pow2(AddressMap.Pos(cfg, cfg.mapping, f)), AddressMap.Pow2(AddressMap.Width(cfg, f));
    Arith.Small(0, p);
    Arith.Small(0, w);
  }

  lemma StrideOrigin(cfg: Config, i: nat)
    requires AddressMap.ValidMapping(cfg)
    ensures 0 <= i * Stride(cfg) && Goes(cfg, i * Stride(cfg), ORIGIN)
  {
    var t, sh := AddressMap.TotalWidth(cfg, cfg.mapping), AddressMap.Shift(cfg);
    AddressMap.Pow2Add(t, sh);
    Arith.Assoc(i, AddressMap.Pow2(t), AddressMap.Pow2(sh));
    var n := i * AddressMap.Pow2(t);
    Arith.DivUnique(n * AddressMap.Pow2(sh), AddressMap.Pow2(sh), n, 0);
    FieldZero(cfg, i, Ch);
    FieldZero(cfg, i, Ra);
    FieldZero(cfg, i, Bg);
    FieldZero(cfg, i, Ba);
    FieldZero(cfg, i, Ro);
    FieldZero(cfg, i, Co);
  }

  // ---------------------------------------------------------------- everything that waits is at home

  ghost predicate HomeTrans(cfg: Config, ts: seq<Transaction>, home: Address, w: bool)
    requires AddressMap.ValidMapping(cfg)
  {
    forall i :: 0 <= i < |ts| ==> Goes(cfg, ts[i].addr, home) && ts[i].isWrite == w
  }

  ghost predicate HomeCmd(cfg: Config, c: Command, home: Address, w: bool)
    requires AddressMap.ValidMapping(cfg)
  {
    Goes(cfg, c.hexAddr, home) && IsWrite(c.ty) == w
  }

  ghost predicate HomeQueues(cfg: Config, qs: seq<seq<Command>>, home: Address, w: bool)
    requires AddressMap.ValidMapping(cfg)
  {
    forall k, j :: 0 <= k < |qs| && 0 <= j < |qs[k]| ==> HomeCmd(cfg, qs[k][j], home, w)
  }

  ghost predicate TransHome(cfg: Config, s: Ctrl, home: Address, w: bool)
    requires AddressMap.ValidMapping(cfg)
  {
    HomeTrans(cfg, s.unified, home, w) && HomeTrans(cfg, s.readQ, home, w) && HomeTrans(cfg, s.writeBuf, home, w)
  }

  /** All waiting transactions and commands are reads, or all are writes, of one address. */
  ghost predicate AtHome(cfg: Config, s: Ctrl, home: Address, w: bool) {
    AddressMap.ValidMapping(cfg) && TransHome(cfg, s, home, w) && HomeQueues(cfg, s.cq.queues, home, w)
  }

  lemma RemovedIn<T>(ts: seq<T>, n: int)
    requires 0 <= n < |ts|
    ensures forall i :: 0 <= i < |Removed(ts, n)| ==> Removed(ts, n)[i] in ts
  {
  }

  lemma ScheduleHome(cfg: Config, s: Ctrl, home: Address, w: bool)
    requires Core(cfg, s) && AtHome(cfg, s, home, w)
    ensures AtHome(cfg, ScheduleTransaction(cfg, s), home, w)
  {
    hide Tracks, RefreshState, TransToCommand, QueueIndex, Goes, AddressMap.ValidMapping, OneEach, NoneLost, Ordered,
         SingleWrites, FirstAccepted, ScheduleTransaction, Placed, QueuesShaped, Sides;
    var ts, n, d, moved := ScheduleForm(cfg, s);
    if moved {
      PushHome(cfg, s.cq.queues, ts[n], home, w);
      RemovedIn(ts, n);
    }
  }

  lemma PushHome(cfg: Config, qs: seq<seq<Command>>, t: Transaction, home: Address, w: bool)
    requires AddressMap.ValidMapping(cfg) && HomeQueues(cfg, qs, home, w) && Goes(cfg, t.addr, home) && t.isWrite == w
    requires 0 <= QueueIndex(cfg, TransToCommand(cfg, t).addr) < |qs|
    ensures HomeQueues(cfg, Pushed(cfg, qs, t), home, w)
  {
    assert HomeCmd(cfg, TransToCommand(cfg, t), home, w);
    hide HomeCmd, TransToCommand, QueueIndex;
  }

  lemma RemoveHome(cfg: Config, qs: seq<seq<Command>>, i: int, m: int, home: Address, w: bool)
    requires AddressMap.ValidMapping(cfg) && HomeQueues(cfg, qs, home, w) && 0 <= i < |qs| && 0 <= m < |qs[i]|
    ensures HomeQueues(cfg, qs[i := Removed(qs[i], m)], home, w)
  {
    hide HomeCmd;
    RemovedIn(qs[i], m);
    forall j | 0 <= j < |Removed(qs[i], m)| ensures HomeCmd(cfg, Removed(qs[i], m)[j], home, w) {
      var h :| 0 <= h < |qs[i]| && qs[i][h] == Removed(qs[i], m)[j];
    }
  }

  // ---------------------------------------------------------------- what a lone queue offers

  function AccessType(cfg: Config, w: bool): CommandType {
    if cfg.closePage then if w then WritePrecharge else ReadPrecharge else if w then Write else Read
  }

  /** Every entry is the same access, up to the address it came from. */
  ghost predicate Alike(cfg: Config, queue: seq<Command>, home: Address, w: bool) {
    forall j :: 0 <= j < |queue| ==> queue[j].addr == home && queue[j].ty == AccessType(cfg, w)
  }

  lemma LoneQueue(cfg: Config, qs: seq<seq<Command>>, home: Address, w: bool, k: int)
    requires AddressMap.ValidMapping(cfg) && Placed(cfg, qs) && HomeQueues(cfg, qs, home, w) && 0 <= k < |qs|
    ensures Alike(cfg, qs[k], home, w)
    ensures k != QueueIndex(cfg, home) ==> qs[k] == []
  {
    forall j | 0 <= j < |qs[k]|
        ensures qs[k][j].addr == home && qs[k][j].ty == AccessType(cfg, w) && k == QueueIndex(cfg, home) {
      assert Fitting(cfg, qs[k][j], k) && HomeCmd(cfg, qs[k][j], home, w);
    }
    if qs[k] != [] { assert Fitting(cfg, qs[k][0], k); }
  }

  predicate Awake(ch: Channel, home: Address) { BankOf(home) in ch.banks && ch.banks[BankOf(home)].state != Sref }

  lemma AwakeNow(cfg: Config, s: Ctrl, home: Address)
    requires Core(cfg, s) && ValidBank(cfg, BankOf(home))
    ensures Awake(s.ch, home)
  {
    hide Books, TimersMatch, WindowsMatch, TraceOk, RefreshState, QueuesShaped, RowAfter;
    assert RowMatch(cfg, s.ch.banks[BankOf(home)], s.log, BankOf(home));
  }

  /** What a queue of such entries can send out. */
  function Offer(cfg: Config, ch: Channel, queue: seq<Command>, home: Address, w: bool, clk: int): Pick
    requires Shaped(cfg, ch) && ValidBank(cfg, BankOf(home))
  {
    var b := ch.banks[BankOf(home)];
    if queue == [] then Wait
    else if b.state == Open then
      if b.openRow == home.row then if clk >= b.timing[AccessType(cfg, w)] then Issue(queue[0]) else Wait
      else if clk >= b.timing[Precharge] then Issue(Command(Precharge, home, queue[0].hexAddr))
      else Wait
    else if clk >= b.timing[Activate] && ActivationWindowOk(cfg, ch, home.rank, clk) then
      Issue(Command(Activate, home, queue[0].hexAddr))
    else Wait
  }

  lemma CandidateAlike(cfg: Config, ch: Channel, queue: seq<Command>, home: Address, w: bool, clk: int, i: int)
    requires Sized(cfg) && Shaped(cfg, ch) && ValidBank(cfg, BankOf(home)) && Alike(cfg, queue, home, w)
    requires 0 <= i < |queue|
    requires Awake(ch, home) && AllInBanks(cfg, queue)
    ensures Offer(cfg, ch, queue, home, w, clk) == Wait ==> Candidate(cfg, ch, queue, i, clk) == Wait
    ensures i == 0 ==> Candidate(cfg, ch, queue, 0, clk) == Offer(cfg, ch, queue, home, w, clk)
  {
    assert queue[i].addr == home && queue[0].addr == home;
  }

  lemma {:induction false} AlikeWait(cfg: Config, ch: Channel, queue: seq<Command>, home: Address, w: bool, clk: int,
                                     i: nat)
    requires Sized(cfg) && Shaped(cfg, ch) && ValidBank(cfg, BankOf(home)) && Alike(cfg, queue, home, w) && i <= |queue|
    requires Awake(ch, home) && AllInBanks(cfg, queue) && Offer(cfg, ch, queue, home, w, clk) == Wait
    ensures FirstReady(cfg, ch, queue, clk, i) == Wait
    decreases |queue| - i
  {
    hide Candidate, Offer, Alike, Awake, Shaped;
    if i < |queue| {
      CandidateAlike(cfg, ch, queue, home, w, clk, i);
      AlikeWait(cfg, ch, queue, home, w, clk, i + 1);
    }
  }

  lemma FirstReadyAlike(cfg: Config, ch: Channel, queue: seq<Command>, home: Address, w: bool, clk: int)
    requires Sized(cfg) && Shaped(cfg, ch) && ValidBank(cfg, BankOf(home)) && Alike(cfg, queue, home, w)
    requires Awake(ch, home) && AllInBanks(cfg, queue)
    ensures FirstReady(cfg, ch, queue, clk, 0) == Offer(cfg, ch, queue, home, w, clk)
  {
    hide Candidate, Alike, Awake, Shaped;
    if queue != [] { CandidateAlike(cfg, ch, queue, home, w, clk, 0); }
    hide Offer;
    if Offer(cfg, ch, queue, home, w, clk) == Wait { AlikeWait(cfg, ch, queue, home, w, clk, 0); }
  }

  /** The next `n` visits from queue `i` on include queue `k`. */
  ghost predicate Visits(cfg: Config, i: int, n: nat, k: int) {
    if i < k then k - i <= n else k + NumQueues(cfg) - i <= n
  }

  /** With every other queue empty or shut, the search gives what queue `k` gives. */
  lemma {:induction false} SearchLone(cfg: Config, ch: Channel, q: CmdQueue, n: nat, k: int, r: Pick)
    requires Sized(cfg) && Shaped(cfg, ch) && QueuesShaped(cfg, q) && 0 <= k < |q.queues|
    requires forall i :: 0 <= i < |q.queues| && i != k ==> q.queues[i] == []
    requires r == if Shut(q, k) then Wait else FirstReady(cfg, ch, q.queues[k], q.clk, 0)
    ensures Search(cfg, ch, q, n).1 in {Wait, r} && (Visits(cfg, q.queueIdx, n, k) ==> Search(cfg, ch, q, n).1 == r)
    decreases n
  {
    hide Shaped;
    if n > 0 {
      var i := NextIndex(cfg, q.queueIdx);
      if i != k || r == Wait {
        assert i != k ==> FirstReady(cfg, ch, q.queues[i], q.clk, 0) == Wait;
        hide FirstReady;
        SearchLone(cfg, ch, q.(queueIdx := i), n - 1, k, r);
      }
    }
  }

  lemma GetHome(cfg: Config, s: Ctrl, q: CmdQueue, home: Address, w: bool)
    requires Core(cfg, s) && Shapely(cfg, s) && HomeQueues(cfg, s.cq.queues, home, w)
    requires ValidBank(cfg, BankOf(home))
    requires QueuesShaped(cfg, q) && q.queues == s.cq.queues && q.clk == s.clk
    ensures 0 <= QueueIndex(cfg, home) < |q.queues|
    ensures GetCommandToIssue(cfg, s.ch, q).1 in
      {Abort, if Shut(q, QueueIndex(cfg, home)) then Wait
         else Offer(cfg, s.ch, q.queues[QueueIndex(cfg, home)], home, w, s.clk)}
  {
    hide Tracks, RefreshState, Sides, OneEach, NoneLost, Ordered, SingleWrites, Offer, Awake, HomeQueues, Placed, Alike,
         Search, FirstReady, QueueIndex, Erase, Shaped;
    IndexOk(cfg, home);
    AwakeNow(cfg, s, home);
    var k := QueueIndex(cfg, home);
    forall i | 0 <= i < |q.queues| ensures Alike(cfg, q.queues[i], home, w) && (i != k ==> q.queues[i] == []) {
      LoneQueue(cfg, s.cq.queues, home, w, i);
    }
    FirstReadyAlike(cfg, s.ch, q.queues[k], home, w, s.clk);
    SearchLone(cfg, s.ch, q, |q.queues|, k, if Shut(q, k) then Wait else FirstReady(cfg, s.ch, q.queues[k], q.clk, 0));
  }

  /** With no refresh waiting, the queue at home decides. */
  lemma ChooseHome(cfg: Config, s: Ctrl, home: Address, w: bool)
    requires Core(cfg, s) && Shapely(cfg, s) && HomeQueues(cfg, s.cq.queues, home, w)
    requires ValidBank(cfg, BankOf(home)) && s.ch.refreshQ == []
    ensures 0 <= QueueIndex(cfg, home) < |s.cq.queues|
    ensures Choose(cfg, s).1 == Offer(cfg, s.ch, s.cq.queues[QueueIndex(cfg, home)], home, w, s.clk)
  {
    hide Tracks, Sides, OneEach, NoneLost, Ordered, SingleWrites, Offer, HomeQueues, Placed, QueueIndex, Shaped,
         GetCommandToIssue, AddressMap.ValidMapping, ServesQueue, ServesRefresh, Ready;
    GetHome(cfg, s, s.cq, home, w);
    var i, p, m := ChooseOk(cfg, s);
  }

  /** While the refresh in front shuts the queue at home, the refresh decides. */
  lemma ChooseFront(cfg: Config, s: Ctrl, home: Address, w: bool)
    requires Core(cfg, s) && Shapely(cfg, s) && HomeQueues(cfg, s.cq.queues, home, w)
    requires ValidBank(cfg, BankOf(home))
    requires s.ch.refreshQ != [] && Covers(cfg, s.ch.refreshQ[0], BankOf(home))
    ensures Choose(cfg, s).1 == ReadyCommand(cfg, s.ch, s.ch.refreshQ[0], s.clk)
  {
    var ref := s.ch.refreshQ[0];
    assert IsRefresh(ref.ty) && Addressed(cfg, ref) && s.cq.clk == s.clk;
    RefIndicesCover(cfg, ref, home);
    hide Tracks, Sides, OneEach, NoneLost, Ordered, SingleWrites, Offer, HomeQueues, Placed, QueueIndex, Shaped,
         GetCommandToIssue, AddressMap.ValidMapping, ServesQueue, ServesRefresh, Ready, RefIndices, ReadyCommand,
         Covers;
    RefreshPickOk(cfg, s);
    var (q, r) := FinishRefresh(cfg, s.ch, s.cq);
    if r == Wait {
      var i, p, m := ChooseOk(cfg, s);
      ShapedFrame(cfg, s.cq, q);
      GetHome(cfg, s, q, home, w);
    }
  }

  lemma ShapedFrame(cfg: Config, q: CmdQueue, q': CmdQueue)
    requires QueuesShaped(cfg, q) && q'.queues == q.queues && q'.queueIdx == q.queueIdx
    ensures QueuesShaped(cfg, q')
  {
  }

  /** While the refresh in front waits and leaves the queue at home open, that queue decides. */
  lemma ChooseBeside(cfg: Config, s: Ctrl, home: Address, w: bool)
    requires Core(cfg, s) && Shapely(cfg, s) && HomeQueues(cfg, s.cq.queues, home, w)
    requires ValidBank(cfg, BankOf(home)) && !cfg.perRankQueues
    requires s.ch.refreshQ != [] && !Covers(cfg, s.ch.refreshQ[0], BankOf(home))
    requires ReadyCommand(cfg, s.ch, s.ch.refreshQ[0], s.clk) == Wait
    ensures 0 <= QueueIndex(cfg, home) < |s.cq.queues|
    ensures Choose(cfg, s).1 == Offer(cfg, s.ch, s.cq.queues[QueueIndex(cfg, home)], home, w, s.clk)
  {
    var ref := s.ch.refreshQ[0];
    assert IsRefresh(ref.ty) && Addressed(cfg, ref) && s.cq.clk == s.clk;
    RefIndicesCover(cfg, ref, home);
    hide Tracks, Sides, OneEach, NoneLost, Ordered, SingleWrites, Offer, HomeQueues, Placed, QueueIndex, Shaped,
         GetCommandToIssue, AddressMap.ValidMapping, ServesQueue, ServesRefresh, Ready, RefIndices, ReadyCommand,
         Covers;
    RefreshPickOk(cfg, s);
    var (q, r) := FinishRefresh(cfg, s.ch, s.cq);
    var i, p, m := ChooseOk(cfg, s);
    ShapedFrame(cfg, s.cq, q);
    GetHome(cfg, s, q, home, w);
  }

  // ---------------------------------------------------------------- a tick at home

  /** The chosen command leaves every queue as it was, or takes one entry of one queue. */
  lemma ChosenHome(cfg: Config, s: Ctrl, home: Address, w: bool)
    requires Core(cfg, s) && Shapely(cfg, s) && HomeQueues(cfg, s.cq.queues, home, w)
    ensures var (q, r) := Choose(cfg, s);
      HomeQueues(cfg, q.queues, home, w) && (!(r.Issue? && IsReadWrite(r.cmd.ty)) ==> q.queues == s.cq.queues)
  {
    hide Tracks, Books, Choose, RefreshState, QueuesShaped, Ready, ValidConfig, HomeQueues, StepOf;
    MappingOk(cfg);
    var i, p, m := ChooseOk(cfg, s);
    var (q, r) := Choose(cfg, s);
    if r.Issue? && IsReadWrite(r.cmd.ty) && ServesQueue(cfg, s, q, r.cmd, i, p, m) {
      RemoveHome(cfg, s.cq.queues, i, m, home, w);
    }
  }

  /** The state after the command half of a tick, and what scheduling makes of it. */
  lemma TickHalves(cfg: Config, s: Ctrl) returns (s1: Ctrl, s2: Ctrl, s': Ctrl)
    requires Inv(cfg, s)
    ensures ValidConfig(cfg) && s1 == RefreshTick(cfg, s) && Core(cfg, s1) && Shapely(cfg, s1) && Core(cfg, s2)
    ensures StepForm(cfg, s1, s2, Choose(cfg, s1).0, Choose(cfg, s1).1)
    ensures Step(cfg, s, Tick) == Some(s')
    ensures var s3 := ScheduleTransaction(cfg, s2); s' == s3.(clk := s.clk + 1, cq := s3.cq.(clk := s3.cq.clk + 1))
  {
    hide Books, Tracks, RefreshState, QueuesShaped, InOrder, IssueStep, ScheduleTransaction, Choose, RefreshTick;
    s1 := RefreshedOk(cfg, s);
    hide ValidConfig, Device;
    StepRuns(cfg, s1);
    s2 := IssueStep(cfg, s1).value;
    StepDevice(cfg, s1, s2);
    StepBooks(cfg, s1, s2);
    s' := Step(cfg, s, Tick).value;
  }

  /** Nothing leaves the queues. */
  ghost predicate Grown(qs: seq<seq<Command>>, qs': seq<seq<Command>>) {
    |qs| == |qs'| && forall k :: 0 <= k < |qs| ==> qs[k] <= qs'[k]
  }

  lemma TickHome(cfg: Config, s: Ctrl, home: Address, w: bool) returns (s1: Ctrl, s': Ctrl)
    requires Inv(cfg, s) && AtHome(cfg, s, home, w)
    ensures ValidConfig(cfg) && s1 == RefreshTick(cfg, s) && Core(cfg, s1) && Shapely(cfg, s1)
    ensures Step(cfg, s, Tick) == Some(s') && AtHome(cfg, s', home, w)
    ensures var r := Choose(cfg, s1).1; !(r.Issue? && IsReadWrite(r.cmd.ty)) ==> Grown(s.cq.queues, s'.cq.queues)
  {
    hide Inv, Core, Choose, ValidConfig, ScheduleTransaction, Update, Ready, Shapely, HomeQueues, TransHome,
         AddressMap.ValidMapping, Shaped, Grown;
    var s2;
    s1, s2, s' := TickHalves(cfg, s);
    RefreshFrame(cfg, s);
    ChosenHome(cfg, s1, home, w);
    assert AtHome(cfg, s2, home, w) by { TransFrame(cfg, s, s2, home, w); }
    ScheduleHome(cfg, s2, home, w);
    TransFrame(cfg, ScheduleTransaction(cfg, s2), s', home, w);
    if !(Choose(cfg, s1).1.Issue? && IsReadWrite(Choose(cfg, s1).1.cmd.ty)) {
      assert s2.cq.queues == s.cq.queues;
      GrownBy(cfg, s2);
    }
  }

  lemma GrownBy(cfg: Config, s: Ctrl)
    requires Core(cfg, s)
    ensures Grown(s.cq.queues, ScheduleTransaction(cfg, s).cq.queues)
  {
    hide Tracks, RefreshState, TransToCommand, QueueIndex, AddressMap.ValidMapping, OneEach, NoneLost, Ordered,
         SingleWrites, FirstAccepted, ScheduleTransaction, Placed, QueuesShaped, Sides;
    var ts, n, d, moved := ScheduleForm(cfg, s);
  }

  lemma RefreshFrame(cfg: Config, s: Ctrl)
    requires ValidConfig(cfg)
    ensures var s1 := RefreshTick(cfg, s);
      s1 == s.(ref := s1.ref, ch := s1.ch) && s1.ch == s.ch.(refreshQ := s1.ch.refreshQ) && s1.ref.clk == s.ref.clk + 1
    ensures RefreshTick(cfg, s).ch.refreshQ == s.ch.refreshQ + if Inserts(cfg, s.ref) then [RefreshCommand(cfg, s.ref)]
      else []
  {
    hide AddressMap.ValidMapping;
  }

  lemma TransFrame(cfg: Config, s: Ctrl, s': Ctrl, home: Address, w: bool)
    requires AddressMap.ValidMapping(cfg) && TransHome(cfg, s, home, w)
    requires s'.unified == s.unified && s'.readQ == s.readQ && s'.writeBuf == s.writeBuf
    ensures TransHome(cfg, s', home, w)
  {
  }

  // ---------------------------------------------------------------- runs, one step at a time

  ghost predicate Reaches(cfg: Config, s: Ctrl) {
    ValidConfig(cfg) && Inv(cfg, s) && exists ops :: Run(cfg, ops) == Some(s)
  }

  lemma ReachedConfig(cfg: Config, s: Ctrl)
    requires Reaches(cfg, s)
    ensures ValidConfig(cfg)
  {
  }

  lemma ReachInitial(cfg: Config)
    requires ValidConfig(cfg)
    ensures Reaches(cfg, Initial(cfg))
  {
    hide ValidConfig, Inv;
    InitialInv(cfg);
    assert Run(cfg, []) == Some(Initial(cfg));
  }

  lemma ReachStep(cfg: Config, s: Ctrl, op: Op, s': Ctrl)
    requires Reaches(cfg, s) && Step(cfg, s, op) == Some(s')
    ensures Reaches(cfg, s')
  {
    hide ValidConfig, Inv, Step;
    var ops :| Run(cfg, ops) == Some(s);
    var ops' := ops + [op];
    assert ops'[..|ops|] == ops;
    RunInv(cfg, ops');
  }

  /** What the queue at home offers. */
  function HomeOffer(cfg: Config, s: Ctrl, home: Address, w: bool): Pick
    requires Shaped(cfg, s.ch) && ValidBank(cfg, BankOf(home)) && 0 <= QueueIndex(cfg, home) < |s.cq.queues|
  {
    Offer(cfg, s.ch, s.cq.queues[QueueIndex(cfg, home)], home, w, s.clk)
  }

  /** The effect of a tick that does `r`. */
  ghost predicate Ticked(cfg: Config, s: Ctrl, s': Ctrl, r: Pick)
    requires Shaped(cfg, s.ch)
  {
    && s'.clk == s.clk + 1
    && match r
      case Abort => false
      case Wait => s'.ch == s.ch && s'.log == s.log && Grown(s.cq.queues, s'.cq.queues)
      case Issue(cmd) =>
        && Ready(cfg, s.ch, cmd, s.clk) && Update(cfg, s.ch, cmd, s.clk) == Some(s'.ch)
        && s'.log == s.log + [Issued(s.clk, cmd)]
        && (!IsReadWrite(cmd.ty) ==> Grown(s.cq.queues, s'.cq.queues))
  }

  lemma ShapedNow(cfg: Config, s: Ctrl, home: Address)
    requires Reaches(cfg, s) && ValidBank(cfg, BankOf(home))
    ensures Shaped(cfg, s.ch) && 0 <= QueueIndex(cfg, home) < |s.cq.queues| && s.ref.clk == s.clk
    ensures AddressMap.ValidMapping(cfg) && s.cq.clk == s.clk
  {
    IndexOk(cfg, home);
    hide Books, RowsMatch, TimersMatch, WindowsMatch, TraceOk, InOrder, RefreshState, QueueIndex, NumQueues;
  }

  /** A tick with no refresh about does what the queue at home offers. */
  lemma HomeTick(cfg: Config, s: Ctrl, home: Address, w: bool) returns (s': Ctrl)
    requires Reaches(cfg, s) && AtHome(cfg, s, home, w) && ValidBank(cfg, BankOf(home))
    requires s.ch.refreshQ == [] && !Inserts(cfg, s.ref)
    ensures Shaped(cfg, s.ch) && 0 <= QueueIndex(cfg, home) < |s.cq.queues|
    ensures Reaches(cfg, s') && AtHome(cfg, s', home, w) && Ticked(cfg, s, s', HomeOffer(cfg, s, home, w))
  {
    hide Core, Past, InOrder, Choose, ValidConfig, Update, Ready, Shapely, Shaped, Grown, TransHome, HomeQueues, Step,
         Offer, AddressMap.ValidMapping, QueueIndex, Inserts;
    ShapedNow(cfg, s, home);
    var s1;
    s1, s' := TickBanks(cfg, s);
    RefreshFrame(cfg, s);
    assert s1.ch == s.ch && s1.cq == s.cq;
    ChooseHome(cfg, s1, home, w);
    s1, s' := TickHome(cfg, s, home, w);
    ReachStep(cfg, s, Tick, s');
  }

  /** A tick with a refresh of the home bank in front does what that refresh needs. */
  lemma FrontTick(cfg: Config, s: Ctrl, home: Address, w: bool, ref: Command) returns (s1: Ctrl, s': Ctrl)
    requires Reaches(cfg, s) && AtHome(cfg, s, home, w) && ValidBank(cfg, BankOf(home))
    requires InFront(cfg, s, ref) && Covers(cfg, ref, BankOf(home))
    ensures ValidConfig(cfg) && s1 == RefreshTick(cfg, s) && Shaped(cfg, s1.ch) && s1.ch.banks == s.ch.banks
    ensures s1.clk == s.clk
    ensures Addressed(cfg, ref) && IsRefresh(ref.ty) && Step(cfg, s, Tick) == Some(s')
    ensures Reaches(cfg, s') && AtHome(cfg, s', home, w) && s'.clk == s.clk + 1
    ensures match ReadyCommand(cfg, s1.ch, ref, s.clk)
      case Abort => false
      case Wait => s'.ch == s1.ch && s'.log == s.log
      case Issue(cmd) => Ready(cfg, s1.ch, cmd, s.clk) && Update(cfg, s1.ch, cmd, s.clk) == Some(s'.ch)
                         && s'.log == s.log + [Issued(s.clk, cmd)]
  {
    hide Past, InOrder, Choose, ValidConfig, Update, Ready, Shapely, Shaped, Grown, TransHome, HomeQueues, Step,
         AddressMap.ValidMapping, QueueIndex, InFront, RefreshTick, Core, ReadyCommand, Covers;
    s1, s' := TickBanks(cfg, s);
    RefreshFrame(cfg, s);
    FrontIs(cfg, s, s1, ref);
    FrontRefresh(cfg, s1);
    HomeParts(cfg, s, home, w);
    ChooseFront(cfg, s1, home, w);
    var s1', s'' := TickHome(cfg, s, home, w);
    ReachStep(cfg, s, Tick, s');
  }

  lemma FrontRefresh(cfg: Config, s: Ctrl)
    requires Core(cfg, s) && s.ch.refreshQ != []
    ensures IsRefresh(s.ch.refreshQ[0].ty) && Addressed(cfg, s.ch.refreshQ[0])
  {
    hide Books, Tracks, QueuesShaped, ValidConfig, RefIndices;
  }

  // ---------------------------------------------------------------- idling and loading

  ghost predicate Empty(s: Ctrl) {
    && s.unified == [] && s.readQ == [] && s.writeBuf == [] && s.pendingRd == [] && s.pendingWr == [] && s.draining == 0
    && QueueEmpty(s.cq)
  }

  ghost predicate Idle(cfg: Config, s: Ctrl) {
    Reaches(cfg, s) && Empty(s) && s.log == [] && s.ch == InitialChannel(cfg)
  }

  lemma EmptyHome(cfg: Config, s: Ctrl, home: Address, w: bool)
    requires AddressMap.ValidMapping(cfg) && Empty(s)
    ensures AtHome(cfg, s, home, w)
  {
  }

  lemma FreshChannel(cfg: Config, home: Address)
    requires Sized(cfg) && ValidBank(cfg, BankOf(home))
    ensures var ch := InitialChannel(cfg);
      ch.refreshQ == [] && |ch.fourAw| == |ch.thirtyTwoAw| == cfg.ranks
    ensures forall b :: ValidBank(cfg, b) ==> b in InitialChannel(cfg).banks && InitialChannel(cfg).banks[b] == FRESH
    ensures forall r :: 0 <= r < cfg.ranks ==>
        InitialChannel(cfg).fourAw[r] == [] && InitialChannel(cfg).thirtyTwoAw[r] == []
  {
    forall b | ValidBank(cfg, b) ensures b in InitialChannel(cfg).banks && InitialChannel(cfg).banks[b] == FRESH {
      assert b == BankId(b.rank, b.bankgroup, b.bank);
    }
  }

  lemma NothingToSchedule(cfg: Config, s: Ctrl)
    requires ValidConfig(cfg) && Empty(s)
    ensures ScheduleTransaction(cfg, s) == s
  {
    hide AddressMap.ValidMapping;
  }

  lemma OriginBank(cfg: Config)
    requires Sized(cfg)
    ensures ValidBank(cfg, BankOf(ORIGIN)) && QueueIndex(cfg, ORIGIN) == 0
  {
  }

  lemma IdleTick(cfg: Config, s: Ctrl) returns (s': Ctrl)
    requires Idle(cfg, s) && !Inserts(cfg, s.ref)
    ensures Idle(cfg, s') && s'.clk == s.clk + 1 && s'.ref.clk == s.ref.clk + 1
  {
    hide Core, Choose, Update, Ready, Shapely, Shaped, Step, HomeQueues, TransHome, AtHome, Inserts, ValidConfig,
         RefreshTick, ScheduleTransaction;
    SizedConfig(cfg);
    OriginBank(cfg);
    ShapedNow(cfg, s, ORIGIN);
    FreshChannel(cfg, ORIGIN);
    EmptyHome(cfg, s, ORIGIN, false);
    var s1, s2;
    s1, s2, s' := TickHalves(cfg, s);
    RefreshFrame(cfg, s);
    assert s1.ch == s.ch && s1.cq == s.cq;
    assert HomeQueues(cfg, s1.cq.queues, ORIGIN, false) by { HomeParts(cfg, s, ORIGIN, false); }
    ChooseHome(cfg, s1, ORIGIN, false);
    ChosenHome(cfg, s1, ORIGIN, false);
    assert Empty(s2);
    NothingToSchedule(cfg, s2);
    ReachStep(cfg, s, Tick, s');
    ShapedNow(cfg, s', ORIGIN);
  }

  lemma HomeParts(cfg: Config, s: Ctrl, home: Address, w: bool)
    requires AtHome(cfg, s, home, w)
    ensures AddressMap.ValidMapping(cfg) && HomeQueues(cfg, s.cq.queues, home, w) && TransHome(cfg, s, home, w)
  {
  }

  lemma SizedConfig(cfg: Config)
    requires ValidConfig(cfg)
    ensures Sized(cfg) && 0 < RefreshInterval(cfg) && 0 < cfg.cmdQueueSize && 0 < cfg.transQueueSize
  {
  }

  /** No refresh is inserted in the first interval. */
  lemma FirstInterval(cfg: Config, g: RefreshGen)
    requires ValidConfig(cfg) && g.clk < RefreshInterval(cfg)
    ensures !Inserts(cfg, g)
  {
    Arith.Small(g.clk, RefreshInterval(cfg));
  }

  /** Nothing happens during the first interval of a run in which nothing arrives. */
  lemma {:induction false} IdleFor(cfg: Config, n: nat) returns (s: Ctrl)
    requires ValidConfig(cfg) && n <= RefreshInterval(cfg)
    ensures Idle(cfg, s) && s.clk == n && s.ref.clk == n
  {
    hide ValidConfig, Inv;
    if n == 0 {
      s := Initial(cfg);
      ReachInitial(cfg);
    } else {
      s := IdleFor(cfg, n - 1);
      FirstInterval(cfg, s.ref);
      s := IdleTick(cfg, s);
    }
  }

  /** A transaction waits where scheduling will take it. */
  ghost predicate Supplied(cfg: Config, s: Ctrl, w: bool) {
    if cfg.unifiedQueue then s.unified != []
    else s.draining == 0 && if w then |s.writeBuf| >= cfg.transQueueSize && s.pendingRd == []
      else s.writeBuf == [] && s.readQ != []
  }

  ghost predicate Loaded(cfg: Config, s: Ctrl, w: bool) {
    && Reaches(cfg, s) && AtHome(cfg, s, ORIGIN, w) && QueueEmpty(s.cq) && Supplied(cfg, s, w)
    && s.log == [] && s.ch == InitialChannel(cfg)
  }

  /** The first `n` multiples of the stride wait as writes. */
  ghost predicate Filling(cfg: Config, s: Ctrl, n: nat)
    requires AddressMap.ValidMapping(cfg)
  {
    && |s.writeBuf| == n && s.pendingWr == s.writeBuf
    && (forall i :: 0 <= i < n ==> s.writeBuf[i].addr == i * Stride(cfg) && s.writeBuf[i].isWrite)
    && s.unified == [] && s.readQ == [] && s.pendingRd == [] && s.draining == 0 && QueueEmpty(s.cq)
  }

  lemma StrideApart(cfg: Config, i: nat, n: nat)
    requires AddressMap.ValidMapping(cfg) && i < n
    ensures i * Stride(cfg) < n * Stride(cfg)
  {
    var d := Stride(cfg);
    Arith.MulMono(i + 1, n, d);
    assert (i + 1) * d == i * d + d;
  }

  lemma FillOne(cfg: Config, s: Ctrl, n: nat) returns (s': Ctrl)
    requires Reaches(cfg, s) && AddressMap.ValidMapping(cfg) && Filling(cfg, s, n) && n < cfg.transQueueSize
    requires !cfg.unifiedQueue
    ensures Reaches(cfg, s') && Filling(cfg, s', n + 1)
    ensures s'.clk == s.clk && s'.ref == s.ref && s'.log == s.log && s'.ch == s.ch
  {
    hide Reaches, AddressMap.ValidMapping, Stride, Filling, AddTransaction, WillAcceptTransaction;
    assert n * Stride(cfg) >= 0 by { StrideOrigin(cfg, n); }
    var a: nat := n * Stride(cfg);
    FillAdds(cfg, s, n, a);
    s' := AddTransaction(cfg, s, a, true);
    ReachStep(cfg, s, Add(a, true), s');
  }

  lemma FillAdds(cfg: Config, s: Ctrl, n: nat, a: nat)
    requires AddressMap.ValidMapping(cfg) && Filling(cfg, s, n) && n < cfg.transQueueSize && !cfg.unifiedQueue
    requires a == n * Stride(cfg)
    ensures WillAcceptTransaction(cfg, s, true)
    ensures var s' := AddTransaction(cfg, s, a, true);
      Filling(cfg, s', n + 1) && s'.clk == s.clk && s'.ref == s.ref && s'.log == s.log && s'.ch == s.ch
  {
    hide AddressMap.ValidMapping, Stride;
    if Has(s.pendingWr, a) {
      var i :| 0 <= i < |s.pendingWr| && s.pendingWr[i].addr == a;
      StrideApart(cfg, i, n);
      assert false;
    }
  }

  lemma {:induction false} FillUp(cfg: Config, s: Ctrl, n: nat) returns (s': Ctrl)
    requires Idle(cfg, s) && AddressMap.ValidMapping(cfg) && n <= cfg.transQueueSize && !cfg.unifiedQueue
    ensures Reaches(cfg, s') && Filling(cfg, s', n)
    ensures s'.clk == s.clk && s'.ref == s.ref && s'.log == s.log && s'.ch == s.ch
    decreases n
  {
    hide Inv, ValidConfig, AddressMap.ValidMapping, InitialChannel;
    s' := s;
    if n > 0 {
      s' := FillUp(cfg, s, n - 1);
      s' := FillOne(cfg, s', n - 1);
    }
  }

  lemma AddedToEmpty(cfg: Config, s: Ctrl, a: nat, home: Address, w: bool)
    requires ValidConfig(cfg) && Empty(s) && (w ==> cfg.unifiedQueue) && Goes(cfg, a, home)
    ensures var s' := AddTransaction(cfg, s, a, w);
      && AtHome(cfg, s', home, w) && QueueEmpty(s'.cq) && Supplied(cfg, s', w)
      && s'.log == s.log && s'.ch == s.ch && s'.clk == s.clk && s'.ref == s.ref
    ensures WillAcceptTransaction(cfg, s, w)
  {
    hide AddressMap.ValidMapping, Goes;
  }

  lemma LoadOne(cfg: Config, s: Ctrl, w: bool) returns (s': Ctrl)
    requires Idle(cfg, s) && (w ==> cfg.unifiedQueue)
    ensures Loaded(cfg, s', w) && s'.clk == s.clk && s'.ref == s.ref
  {
    hide Inv, ValidConfig, InitialChannel, Goes, Stride, AtHome, Empty, Supplied, AddTransaction, WillAcceptTransaction,
         QueueEmpty;
    MappingOk(cfg);
    StrideOrigin(cfg, 0);
    assert Goes(cfg, 0, ORIGIN);
    AddedToEmpty(cfg, s, 0, ORIGIN, w);
    s' := AddTransaction(cfg, s, 0, w);
    ReachStep(cfg, s, Add(0, w), s');
  }

  lemma LoadMany(cfg: Config, s: Ctrl) returns (s': Ctrl)
    requires Idle(cfg, s) && !cfg.unifiedQueue
    ensures Loaded(cfg, s', true) && s'.clk == s.clk && s'.ref == s.ref
  {
    hide Inv, AddressMap.ValidMapping, InitialChannel, Goes, Stride, ValidConfig;
    MappingOk(cfg);
    SizedConfig(cfg);
    s' := FillUp(cfg, s, cfg.transQueueSize);
    forall i | 0 <= i < |s'.writeBuf| ensures Goes(cfg, s'.writeBuf[i].addr, ORIGIN) { StrideOrigin(cfg, i); }
  }

  lemma Load(cfg: Config, s: Ctrl, w: bool) returns (s': Ctrl)
    requires Idle(cfg, s)
    ensures Loaded(cfg, s', w) && s'.clk == s.clk && s'.ref == s.ref
  {
    hide Idle, Loaded;
    if w && !cfg.unifiedQueue { s' := LoadMany(cfg, s); } else { s' := LoadOne(cfg, s, w); }
  }

  lemma FirstFits(cfg: Config, q: CmdQueue, ts: seq<Transaction>, home: Address, w: bool)
    requires AddressMap.ValidMapping(cfg) && HomeTrans(cfg, ts, home, w) && ts != [] && 0 < cfg.cmdQueueSize
    requires 0 <= QueueIndex(cfg, home) < |q.queues| && q.queues[QueueIndex(cfg, home)] == []
    ensures FirstAccepted(cfg, q, ts) == 0 && TransToCommand(cfg, ts[0]).addr == home && ts[0].isWrite == w
  {
    assert Goes(cfg, ts[0].addr, home);
  }

  /** Scheduling fills the empty queue at home. */
  lemma SupplyMoves(cfg: Config, s: Ctrl, home: Address, w: bool)
    requires ValidConfig(cfg) && AtHome(cfg, s, home, w) && Supplied(cfg, s, w)
    requires 0 <= QueueIndex(cfg, home) < |s.cq.queues| && QueueEmpty(s.cq)
    ensures ScheduleTransaction(cfg, s).cq.queues[QueueIndex(cfg, home)] != []
  {
    hide AddressMap.ValidMapping, QueueIndex, TransToCommand, FirstAccepted, HomeQueues, HomeTrans;
    var d := Draining(cfg, s);
    var ts := if cfg.unifiedQueue then s.unified else if d > 0 then s.writeBuf else s.readQ;
    assert HomeTrans(cfg, ts, home, w);
    FirstFits(cfg, s.cq, ts, home, w);
  }
}
