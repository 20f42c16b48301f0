/** How close a refresh can come to an activation of its bank: which configurations keep the distances
    of the data sheet in every run, and runs of all the others in which they are not kept. */
module RefreshGaps {
  import opened Common
  import opened Timing
  import opened Banks
  import opened Channels
  import opened ChannelProofs
  import opened CommandQueues
  import opened Controllers
  import opened ControllerProofs
  import opened RefreshProofs
  import opened Runs
  import opened Progress
  import opened Scenes
  import opened Trace
  import opened Options
  import Arith
  import AddressMap
  import Jedec

  // ---------------------------------------------------------------- one row opened and closed again

  function ActTo(cfg: Config, w: bool): int { if w then ActToWrite(cfg) else ActToRead(cfg) }

  /** From an access with auto-precharge to a refresh of its bank. */
  function CloseTo(cfg: Config, w: bool): int { if w then WriteToActivate(cfg) else ReadToActivate(cfg) }

  /** What activating a row asks of its own bank, and of the others in the rank. */
  lemma ActivateTable(cfg: Config, cmd: Command, b: BankId, w: bool)
    requires cmd.ty == Activate && b.rank == cmd.addr.rank
    ensures forall e :: e in Consulted(cfg, cmd, b) ==> e.ty != Refresh
    ensures b == BankOf(cmd.addr) ==> var t := Consulted(cfg, cmd, b);
      && Entry(AccessType(cfg, w), ActTo(cfg, w)) in t
      && forall e :: e in t ==> e.ty != RefreshBank && (e.ty == AccessType(cfg, w) ==> e.delay == ActTo(cfg, w))
  {
  }

  /** What an access with auto-precharge asks. */
  lemma AccessTable(cfg: Config, cmd: Command, b: BankId, w: bool, ty: CommandType)
    requires cfg.closePage && cmd.ty == AccessType(cfg, w) && b.rank == cmd.addr.rank && IsRefresh(ty)
    ensures b == BankOf(cmd.addr) ==> var t := Consulted(cfg, cmd, b);
      Entry(ty, CloseTo(cfg, w)) in t && forall e :: e in t && e.ty == ty ==> e.delay == CloseTo(cfg, w)
    ensures b != BankOf(cmd.addr) ==> forall e :: e in Consulted(cfg, cmd, b) ==> e.ty != ty
  {
  }

  ghost predicate BankOpened(cfg: Config, bank: BankState, b: BankId, w: bool, due: int) {
    && bank.timing[Refresh] == 0
    && if b == BankOf(ORIGIN) then
         && bank.state == Open && bank.openRow == 0 && bank.timing[AccessType(cfg, w)] == due
         && bank.timing[RefreshBank] == 0
       else bank.state == Closed
  }

  ghost predicate BankShut(bank: BankState, b: BankId, due: int) {
    && bank.state == Closed
    && if b == BankOf(ORIGIN) then bank.timing[Refresh] == bank.timing[RefreshBank] == due
       else bank.timing[Refresh] == 0
  }

  /** The home bank has had its row opened, and nothing else happened in its rank. */
  ghost predicate Opened(cfg: Config, ch: Channel, w: bool, due: int) {
    && Shaped(cfg, ch) && ch.refreshQ == []
    && forall b :: ValidBank(cfg, b) && b.rank == 0 ==> BankOpened(cfg, ch.banks[b], b, w, due)
  }

  /** The home bank is closed and takes a refresh from cycle `due` on; the rest of its rank takes one now. */
  ghost predicate ShutUntil(cfg: Config, ch: Channel, due: int) {
    && Shaped(cfg, ch)
    && forall b :: ValidBank(cfg, b) && b.rank == 0 ==> BankShut(ch.banks[b], b, due)
  }

  lemma OpenBank(cfg: Config, before: BankState, after: BankState, cmd: Command, b: BankId, clk: int, w: bool)
    requires cmd.ty == Activate && cmd.addr == ORIGIN && ValidBank(cfg, b) && b.rank == 0 && before == FRESH
    requires BankMoved(before, after, Covers(cfg, cmd, b), cmd, Consulted(cfg, cmd, b), clk)
    ensures BankOpened(cfg, after, b, w, Max(0, clk + ActTo(cfg, w)))
  {
    ActivateTable(cfg, cmd, b, w);
    assert Covers(cfg, cmd, b) <==> b == BankOf(ORIGIN);
    hide Consulted, ActTo, AccessType, Covers;
    var table := Consulted(cfg, cmd, b);
    TimerStays(before, after, Covers(cfg, cmd, b), cmd, table, clk, Refresh);
    if b == BankOf(ORIGIN) {
      TimerStays(before, after, Covers(cfg, cmd, b), cmd, table, clk, RefreshBank);
      TimerMoves(before, after, Covers(cfg, cmd, b), cmd, table, clk, AccessType(cfg, w), ActTo(cfg, w));
    }
  }

  lemma Opens(cfg: Config, cmd: Command, clk: int, w: bool, ch: Channel, ch': Channel)
    requires Sized(cfg) && cmd.ty == Activate && cmd.addr == ORIGIN
    requires Shaped(cfg, ch) && ch.refreshQ == [] && forall b :: ValidBank(cfg, b) ==> ch.banks[b] == FRESH
    requires Ready(cfg, ch, cmd, clk) && Update(cfg, ch, cmd, clk) == Some(ch')
    ensures Opened(cfg, ch', w, Max(0, clk + ActTo(cfg, w)))
  {
    DroppedFront(cfg, ch, cmd, clk);
    UpdateShaped(cfg, ch, cmd, clk);
    hide Update, Consulted, Ready, BankMoved, Covers, BankOpened, ActTo;
    forall b | ValidBank(cfg, b) && b.rank == 0
        ensures BankOpened(cfg, ch'.banks[b], b, w, Max(0, clk + ActTo(cfg, w))) {
      UpdateBank(cfg, ch, cmd, clk, b);
      OpenBank(cfg, ch.banks[b], ch'.banks[b], cmd, b, clk, w);
    }
  }

  lemma ShutBank(cfg: Config, before: BankState, after: BankState, cmd: Command, b: BankId, clk: int, w: bool, due: int)
    requires cfg.closePage && cmd.ty == AccessType(cfg, w) && cmd.addr == ORIGIN && ValidBank(cfg, b) && b.rank == 0
    requires BankMoved(before, after, Covers(cfg, cmd, b), cmd, Consulted(cfg, cmd, b), clk)
    requires BankOpened(cfg, before, b, w, due)
    ensures BankShut(after, b, Max(0, clk + CloseTo(cfg, w)))
  {
    AccessTable(cfg, cmd, b, w, Refresh);
    AccessTable(cfg, cmd, b, w, RefreshBank);
    assert Covers(cfg, cmd, b) <==> b == BankOf(ORIGIN);
    assert cmd.ty in {ReadPrecharge, WritePrecharge};
    hide Consulted, CloseTo, AccessType, Covers;
    var table := Consulted(cfg, cmd, b);
    if b == BankOf(ORIGIN) {
      TimerMoves(before, after, Covers(cfg, cmd, b), cmd, table, clk, Refresh, CloseTo(cfg, w));
      TimerMoves(before, after, Covers(cfg, cmd, b), cmd, table, clk, RefreshBank, CloseTo(cfg, w));
    } else {
      TimerStays(before, after, Covers(cfg, cmd, b), cmd, table, clk, Refresh);
    }
  }

  lemma Shuts(cfg: Config, ch: Channel, cmd: Command, clk: int, w: bool, due: int, ch': Channel)
    requires Sized(cfg) && cfg.closePage && cmd.ty == AccessType(cfg, w) && cmd.addr == ORIGIN
    requires Opened(cfg, ch, w, due) && Ready(cfg, ch, cmd, clk) && Update(cfg, ch, cmd, clk) == Some(ch')
    ensures ShutUntil(cfg, ch', Max(0, clk + CloseTo(cfg, w))) && ch'.refreshQ == []
  {
    assert !IsRefresh(cmd.ty);
    DroppedFront(cfg, ch, cmd, clk);
    UpdateShaped(cfg, ch, cmd, clk);
    hide Update, Consulted, Ready, BankMoved, Covers, AccessType, BankOpened, BankShut, CloseTo;
    forall b | ValidBank(cfg, b) && b.rank == 0 ensures BankShut(ch'.banks[b], b, Max(0, clk + CloseTo(cfg, w))) {
      UpdateBank(cfg, ch, cmd, clk, b);
      ShutBank(cfg, ch.banks[b], ch'.banks[b], cmd, b, clk, w, due);
    }
  }

  /** The first refresh of the rotation. */
  lemma FirstRefresh(cfg: Config, s: Ctrl)
    requires Reaches(cfg, s) && s.clk == RefreshInterval(cfg)
    ensures Inserts(cfg, s.ref) && RefreshCommand(cfg, s.ref) == Target(cfg, 0)
    ensures Covers(cfg, Target(cfg, 0), BankOf(ORIGIN)) && IsRefresh(Target(cfg, 0).ty)
    ensures BankOf(Target(cfg, 0).addr) == BankOf(ORIGIN) || Target(cfg, 0).ty == Refresh
    ensures Target(cfg, 0).addr.rank == 0
  {
    hide Core, Past, AddressMap.ValidMapping;
    var t := RefreshInterval(cfg);
    Arith.Small(t - 1, t);
    CountZero(cfg);
    OriginBank(cfg);
    Arith.DivUnique(t, t, 1, 0);
  }

  /** A refresh of a closed bank, or of a closed rank, waits for its timer only. */
  lemma RefreshReady(cfg: Config, ch: Channel, ref: Command, clk: int, due: int)
    requires Sized(cfg) && ShutUntil(cfg, ch, due) && clk >= 0 && Addressed(cfg, ref) && IsRefresh(ref.ty)
    requires ref.addr.rank == 0 && (BankOf(ref.addr) == BankOf(ORIGIN) || ref.ty == Refresh)
    ensures ReadyCommand(cfg, ch, ref, clk) == if clk >= due then Issue(ref) else Wait
  {
    if ref.ty == Refresh {
      var ids := RankBanks(cfg, 0);
      var n := FirstStop(ch, ids, ref, clk);
      assert BankOf(ORIGIN) in ids;
      forall b | b in ids ensures !Stops(ch.banks[b], ref, clk) {}
      assert n == |ids|;
      assert clk >= due ==> forall i :: 0 <= i < |ids| ==> GetReadyCommand(ch.banks[ids[i]], ref, clk).Issue?;
      if clk < due {
        var i :| 0 <= i < |ids| && ids[i] == BankOf(ORIGIN);
        assert !GetReadyCommand(ch.banks[ids[i]], ref, clk).Issue?;
      }
    }
  }

  // ---------------------------------------------------------------- the run, stage by stage

  /** The home queue has work. */
  ghost predicate Queued(cfg: Config, s: Ctrl, w: bool) {
    Reaches(cfg, s) && AtHome(cfg, s, ORIGIN, w) && 0 < |s.cq.queues| && s.cq.queues[0] != []
  }

  /** The first transaction becomes a command. */
  lemma LoadTick(cfg: Config, s: Ctrl, w: bool) returns (s': Ctrl)
    requires Loaded(cfg, s, w) && !Inserts(cfg, s.ref)
    ensures Queued(cfg, s', w) && s'.clk == s.clk + 1 && s'.log == [] && s'.ch == s.ch
  {
    hide Core, Past, InOrder, Choose, Update, Ready, Shapely, Shaped, Step, HomeQueues, TransHome, AtHome, Inserts,
         ValidConfig, RefreshTick, ScheduleTransaction, Supplied, InitialChannel, QueueIndex, AddressMap.ValidMapping;
    SizedConfig(cfg);
    OriginBank(cfg);
    ShapedNow(cfg, s, ORIGIN);
    FreshChannel(cfg, ORIGIN);
    var s1, s2;
    s1, s' := TickHome(cfg, s, ORIGIN, w);
    s1, s2, s' := TickHalves(cfg, s);
    RefreshFrame(cfg, s);
    assert s1.ch == s.ch && s1.cq == s.cq;
    HomeParts(cfg, s, ORIGIN, w);
    ChooseHome(cfg, s1, ORIGIN, w);
    ChosenHome(cfg, s1, ORIGIN, w);
    SuppliedFrame(cfg, s, s2, w);
    HomeFrame(cfg, s, s2, w);
    SupplyMoves(cfg, s2, ORIGIN, w);
    SchedulePast(cfg, s2);
    ReachStep(cfg, s, Tick, s');
    ShapedNow(cfg, s', ORIGIN);
  }

  lemma SuppliedFrame(cfg: Config, s: Ctrl, s': Ctrl, w: bool)
    requires Supplied(cfg, s, w) && s'.unified == s.unified && s'.readQ == s.readQ && s'.writeBuf == s.writeBuf
    requires s'.pendingRd == s.pendingRd && s'.draining == s.draining
    ensures Supplied(cfg, s', w)
  {
  }

  lemma HomeFrame(cfg: Config, s: Ctrl, s': Ctrl, w: bool)
    requires AtHome(cfg, s, ORIGIN, w) && s'.unified == s.unified && s'.readQ == s.readQ && s'.writeBuf == s.writeBuf
    requires s'.cq.queues == s.cq.queues
    ensures AtHome(cfg, s', ORIGIN, w)
  {
  }

  lemma FirstOf(cfg: Config, s: Ctrl, w: bool)
    requires Queued(cfg, s, w)
    ensures s.cq.queues[0][0].addr == ORIGIN && s.cq.queues[0][0].ty == AccessType(cfg, w)
  {
    hide Tracks, RefreshState, QueuesShaped, OneEach, NoneLost, Ordered, Sides, Past, InOrder, AddressMap.ValidMapping,
         TransHome, HomeQueues;
    LoneQueue(cfg, s.cq.queues, ORIGIN, w, 0);
  }

  /** The activation. */
  lemma ActTick(cfg: Config, s: Ctrl, w: bool) returns (s': Ctrl, h: nat)
    requires Queued(cfg, s, w) && !Inserts(cfg, s.ref) && s.ch == InitialChannel(cfg) && s.log == []
    ensures Queued(cfg, s', w) && s'.clk == s.clk + 1 && s'.log == [Issued(s.clk, Command(Activate, ORIGIN, h))]
    ensures Opened(cfg, s'.ch, w, Max(0, s.clk + ActTo(cfg, w)))
  {
    hide Inv, Update, Ready, AtHome, Inserts, ValidConfig, InitialChannel, QueueIndex, Opened, AccessType, Shaped;
    SizedConfig(cfg);
    OriginBank(cfg);
    ShapedNow(cfg, s, ORIGIN);
    FreshChannel(cfg, ORIGIN);
    h := s.cq.queues[0][0].hexAddr;
    s' := HomeTick(cfg, s, ORIGIN, w);
    assert HomeOffer(cfg, s, ORIGIN, w) == Issue(Command(Activate, ORIGIN, h));
    Opens(cfg, Command(Activate, ORIGIN, h), s.clk, w, s.ch, s'.ch);
  }

  lemma OpenedRow(cfg: Config, ch: Channel, w: bool, due: int)
    requires Opened(cfg, ch, w, due) && Sized(cfg)
    ensures Shaped(cfg, ch) && ch.refreshQ == [] && ValidBank(cfg, BankOf(ORIGIN))
    ensures ch.banks[BankOf(ORIGIN)].state == Open && ch.banks[BankOf(ORIGIN)].openRow == 0
    ensures ch.banks[BankOf(ORIGIN)].timing[AccessType(cfg, w)] == due
  {
    OriginBank(cfg);
    assert BankOpened(cfg, ch.banks[BankOf(ORIGIN)], BankOf(ORIGIN), w, due);
  }

  /** Waiting for the access. */
  lemma {:induction false} WaitOpen(cfg: Config, s: Ctrl, w: bool, due: int, until: int) returns (s': Ctrl)
    requires Queued(cfg, s, w) && Opened(cfg, s.ch, w, due) && s.clk <= until < RefreshInterval(cfg)
    requires until <= Max(s.clk, due)
    ensures Queued(cfg, s', w) && s'.ch == s.ch && s'.log == s.log && s'.clk == until
    decreases until - s.clk
  {
    hide Inv, AtHome, Inserts, ValidConfig, QueueIndex, Opened, AccessType, Shaped;
    s' := s;
    if s.clk < until {
      SizedConfig(cfg);
      OriginBank(cfg);
      ShapedNow(cfg, s, ORIGIN);
      OpenedRow(cfg, s.ch, w, due);
      FirstInterval(cfg, s.ref);
      s' := HomeTick(cfg, s, ORIGIN, w);
      assert HomeOffer(cfg, s, ORIGIN, w) == Wait;
      s' := WaitOpen(cfg, s', w, due, until);
    }
  }

  /** The access, which closes the row again. */
  lemma AccessTick(cfg: Config, s: Ctrl, w: bool, due: int) returns (s': Ctrl, cmd: Command)
    requires Queued(cfg, s, w) && Opened(cfg, s.ch, w, due) && due <= s.clk < RefreshInterval(cfg) && cfg.closePage
    ensures Reaches(cfg, s') && AtHome(cfg, s', ORIGIN, w) && s'.clk == s.clk + 1
    ensures s'.log == s.log + [Issued(s.clk, cmd)]
    ensures cmd.ty == AccessType(cfg, w) && cmd.addr == ORIGIN
    ensures ShutUntil(cfg, s'.ch, Max(0, s.clk + CloseTo(cfg, w))) && s'.ch.refreshQ == []
  {
    hide Inv, Update, Ready, AtHome, Inserts, ValidConfig, QueueIndex, Opened, AccessType, Shaped, ShutUntil;
    SizedConfig(cfg);
    OriginBank(cfg);
    ShapedNow(cfg, s, ORIGIN);
    OpenedRow(cfg, s.ch, w, due);
    FirstInterval(cfg, s.ref);
    FirstOf(cfg, s, w);
    cmd := s.cq.queues[0][0];
    s' := HomeTick(cfg, s, ORIGIN, w);
    assert HomeOffer(cfg, s, ORIGIN, w) == Issue(cmd);
    Shuts(cfg, s.ch, cmd, s.clk, w, due, s'.ch);
  }

  lemma ShutRow(cfg: Config, ch: Channel, due: int)
    requires ShutUntil(cfg, ch, due) && Sized(cfg)
    ensures ValidBank(cfg, BankOf(ORIGIN))
  {
    OriginBank(cfg);
    assert BankShut(ch.banks[BankOf(ORIGIN)], BankOf(ORIGIN), due);
  }

  lemma ShutFrame(cfg: Config, ch: Channel, ch': Channel, due: int)
    requires ShutUntil(cfg, ch, due) && Shaped(cfg, ch') && ch'.banks == ch.banks
    ensures ShutUntil(cfg, ch', due)
  {
  }

  /** The first refresh goes out as soon as the home bank takes it. */
  lemma {:induction false} FrontWait(cfg: Config, s: Ctrl, w: bool, ref: Command, due: int) returns (s': Ctrl)
    requires Reaches(cfg, s) && AtHome(cfg, s, ORIGIN, w) && ShutUntil(cfg, s.ch, due) && InFront(cfg, s, ref)
    requires Covers(cfg, ref, BankOf(ORIGIN)) && ref.addr.rank == 0
    requires (BankOf(ref.addr) == BankOf(ORIGIN) || ref.ty == Refresh)
    ensures Reaches(cfg, s') && s'.log == s.log + [Issued(Max(s.clk, due), ref)]
    decreases due - s.clk
  {
    hide Inv, AtHome, ValidConfig, ShutUntil, Shaped, Update, Ready, ReadyCommand, InFront, Covers, RefreshTick;
    SizedConfig(cfg);
    ShutRow(cfg, s.ch, due);
    var s1;
    s1, s' := FrontTick(cfg, s, ORIGIN, w, ref);
    ShutFrame(cfg, s.ch, s1.ch, due);
    RefreshReady(cfg, s1.ch, ref, s.clk, due);
    if s.clk < due {
      FrontIs(cfg, s, s1, ref);
      FrontKept(cfg, s', ref);
      s' := FrontWait(cfg, s', w, ref, due);
    }
  }

  /** The first refresh leaves room before it to open a row and access it. */
  predicate Room(cfg: Config, w: bool) { ValidConfig(cfg) && RefreshInterval(cfg) >= Max(1, ActTo(cfg, w)) + 2 }

  /** The three commands of the run: a row is opened, accessed and closed in one, and its bank refreshed. */
  ghost predicate ShortRow(cfg: Config, log: seq<Issued>, w: bool) {
    && |log| == 3 && log[0].cmd.ty == Activate && log[0].cmd.addr == ORIGIN && log[1].cmd.ty == AccessType(cfg, w)
    && IsRefresh(log[2].cmd.ty) && Covers(cfg, log[0].cmd, BankOf(ORIGIN)) && Covers(cfg, log[2].cmd, BankOf(ORIGIN))
    && log[2].clk == log[0].clk + Max(1, ActTo(cfg, w)) + Max(1, CloseTo(cfg, w))
  }

  /** At cycle `start` + 1 of the first interval an access waits, and nothing has been issued. */
  lemma WaitRun(cfg: Config, w: bool, start: nat) returns (s: Ctrl)
    requires ValidConfig(cfg) && start < RefreshInterval(cfg)
    ensures Queued(cfg, s, w) && s.clk == start + 1 && s.log == [] && s.ch == InitialChannel(cfg)
  {
    hide ValidConfig, Reaches, Loaded, Idle, Inserts, AtHome, RefreshInterval, InitialChannel;
    s := IdleFor(cfg, start);
    s := Load(cfg, s, w);
    FirstInterval(cfg, s.ref);
    LoadedFresh(cfg, s, w);
    s := LoadTick(cfg, s, w);
  }

  /** A row was opened just so early that it takes its access in the last cycle before the first refresh. */
  ghost predicate OpenInTime(cfg: Config, s: Ctrl, w: bool) {
    && Queued(cfg, s, w) && ValidConfig(cfg) && s.clk == RefreshInterval(cfg) - 1 && |s.log| == 1
    && s.log[0].cmd.ty == Activate && s.log[0].cmd.addr == ORIGIN && s.log[0].clk == s.clk - Max(1, ActTo(cfg, w))
    && Opened(cfg, s.ch, w, Max(0, s.log[0].clk + ActTo(cfg, w)))
  }

  lemma OpenFrom(cfg: Config, s: Ctrl, w: bool, last: int, due: int) returns (s': Ctrl)
    requires Queued(cfg, s, w) && s.ch == InitialChannel(cfg) && s.log == [] && !Inserts(cfg, s.ref)
    requires due == Max(0, s.clk + ActTo(cfg, w)) && last == s.clk + Max(1, ActTo(cfg, w)) < RefreshInterval(cfg)
    ensures Queued(cfg, s', w) && s'.clk == last && Opened(cfg, s'.ch, w, due)
    ensures |s'.log| == 1 && s'.log[0].cmd.ty == Activate && s'.log[0].cmd.addr == ORIGIN && s'.log[0].clk == s.clk
  {
    hide Inv, ValidConfig, AtHome, Inserts, Opened, ActTo, RefreshInterval, InitialChannel;
    var h;
    s', h := ActTick(cfg, s, w);
    s' := WaitOpen(cfg, s', w, due, last);
  }

  lemma OpenRun(cfg: Config, w: bool) returns (s: Ctrl)
    requires ValidConfig(cfg) && Room(cfg, w)
    ensures OpenInTime(cfg, s, w)
  {
    var last := RefreshInterval(cfg) - 1;
    var start := last - Max(1, ActTo(cfg, w)) - 1;
    assert 0 <= start < last;
    hide ValidConfig, Queued, Inserts, Opened, ActTo, Room, RefreshInterval, InitialChannel, Max;
    s := WaitRun(cfg, w, start);
    ClockNow(cfg, s, w);
    FirstInterval(cfg, s.ref);
    s := OpenFrom(cfg, s, w, last, Max(0, start + 1 + ActTo(cfg, w)));
  }

  lemma ClockNow(cfg: Config, s: Ctrl, w: bool)
    requires Queued(cfg, s, w)
    ensures s.ref.clk == s.clk
  {
    hide Core, Past, InOrder;
  }

  lemma ThenRefresh(cfg: Config, s: Ctrl, w: bool, due: int) returns (s': Ctrl)
    requires Reaches(cfg, s) && AtHome(cfg, s, ORIGIN, w) && ShutUntil(cfg, s.ch, due) && s.ch.refreshQ == []
    requires s.clk == RefreshInterval(cfg)
    ensures Reaches(cfg, s') && s'.log == s.log + [Issued(Max(s.clk, due), Target(cfg, 0))]
  {
    hide Inv, ValidConfig, Inserts, AtHome, ShutUntil, InFront, RefreshInterval, Target, RefreshCommand, ValidBank,
         Covers;
    SizedConfig(cfg);
    FirstRefresh(cfg, s);
    FirstInFront(cfg, s, Target(cfg, 0));
    s' := FrontWait(cfg, s, w, Target(cfg, 0), due);
  }

  /** With auto-precharge there is a run in which the bank is refreshed no later after its activation
      than the two delays on the way ask. */
  lemma ShortRowRun(cfg: Config, w: bool) returns (s: Ctrl)
    requires ValidConfig(cfg) && cfg.closePage && Room(cfg, w)
    ensures Reaches(cfg, s) && ShortRow(cfg, s.log, w)
  {
    hide ValidConfig, Reaches, AtHome, Opened, ShutUntil, ActTo, CloseTo, Room, AccessType, RefreshInterval, Target,
         ShortRow;
    var cmd;
    s := OpenRun(cfg, w);
    var a, r := s.log[0], s.clk;
    s, cmd := AccessTick(cfg, s, w, Max(0, a.clk + ActTo(cfg, w)));
    ReachedConfig(cfg, s);
    s := ThenRefresh(cfg, s, w, Max(0, r + CloseTo(cfg, w)));
    assert s.log == [a, Issued(r, cmd), Issued(Max(r + 1, Max(0, r + CloseTo(cfg, w))), Target(cfg, 0))];
    IsShortRow(cfg, w, s.log);
  }

  lemma IsShortRow(cfg: Config, w: bool, log: seq<Issued>)
    requires ValidConfig(cfg) && |log| == 3 && log[0].cmd.ty == Activate && log[0].cmd.addr == ORIGIN
    requires log[1].cmd.ty == AccessType(cfg, w)
    requires log[2].cmd == Target(cfg, 0) && log[2].clk == log[0].clk + Max(1, ActTo(cfg, w)) + Max(1, CloseTo(cfg, w))
    ensures ShortRow(cfg, log, w)
  {
    hide AccessType, AddressMap.ValidMapping, ActTo, CloseTo;
    OriginBank(cfg);
    CountZero(cfg);
  }

  lemma LoadedFresh(cfg: Config, s: Ctrl, w: bool)
    requires Loaded(cfg, s, w)
    ensures s.ch == InitialChannel(cfg)
  {
  }

  lemma FirstInFront(cfg: Config, s: Ctrl, ref: Command)
    requires ValidConfig(cfg) && s.ch.refreshQ == [] && Inserts(cfg, s.ref) && ref == RefreshCommand(cfg, s.ref)
    ensures InFront(cfg, s, ref)
  {
  }

  // ---------------------------------------------------------------- which commands a configuration uses

  ghost predicate KindsOk(cfg: Config, log: seq<Issued>) {
    forall i :: 0 <= i < |log| ==> KindOk(cfg, log[i].cmd)
  }

  lemma {:induction false} RunKinds(cfg: Config, ops: seq<Op>)
    requires ValidConfig(cfg)
    ensures Run(cfg, ops).Some? && KindsOk(cfg, Run(cfg, ops).value.log)
  {
    hide ValidConfig, Inv, Step, Choose, KindOk, Shapely;
    if ops != [] {
      RunKinds(cfg, ops[..|ops| - 1]);
      RunInv(cfg, ops[..|ops| - 1]);
      var s := Run(cfg, ops[..|ops| - 1]).value;
      if ops[|ops| - 1] == Tick {
        var s1, s' := TickBanks(cfg, s);
      } else {
        var s' := OtherKeeps(cfg, s, ops[|ops| - 1]);
      }
    }
  }

  // ---------------------------------------------------------------- activation to refresh: tRC

  /** Every refresh of a bank comes at least tRC after every earlier activation of it. */
  ghost predicate RowCycleKept(cfg: Config, log: seq<Issued>) {
    forall i, j, b :: (0 <= i < j < |log| && log[i].cmd.ty == Activate && IsRefresh(log[j].cmd.ty)
                       && Covers(cfg, log[i].cmd, b) && Covers(cfg, log[j].cmd, b)) ==>
                            log[j].clk >= log[i].clk + cfg.TRC()
  }

  /** Opening a row and closing it by its access takes at least tRC. */
  predicate LongRow(cfg: Config, w: bool) { Max(1, ActTo(cfg, w)) + Max(1, CloseTo(cfg, w)) >= cfg.TRC() }

  predicate KeepsRowCycle(cfg: Config) { cfg.closePage ==> LongRow(cfg, false) && LongRow(cfg, true) }

  lemma RowCycleOf(cfg: Config, log: seq<Issued>, i: int, j: int, b: BankId)
    requires TraceOk(cfg, log) && KindsOk(cfg, log) && KeepsRowCycle(cfg) && 0 <= i < j < |log|
    requires log[i].cmd.ty == Activate && IsRefresh(log[j].cmd.ty) && Covers(cfg, log[i].cmd, b)
    requires Covers(cfg, log[j].cmd, b)
    ensures log[j].clk >= log[i].clk + cfg.TRC()
  {
    assert LegalNext(cfg, log[..j], log[j].cmd);
    var c := Jedec.ClosedBetween(cfg, log, i, j, b);
    assert KindOk(cfg, log[c].cmd);
    Jedec.Minima(cfg, log, i, c, b);
    Jedec.Minima(cfg, log, c, j, b);
    assert log[i].clk < log[c].clk < log[j].clk;
  }

  /** Where opening and closing a row takes tRC, or pages stay open, every run keeps tRC from
      activation to refresh. */
  lemma RowCycleHolds(cfg: Config, ops: seq<Op>)
    requires ValidConfig(cfg) && KeepsRowCycle(cfg)
    ensures Run(cfg, ops).Some? && RowCycleKept(cfg, Run(cfg, ops).value.log)
  {
    hide ValidConfig, Run, TraceOk, KindsOk, KeepsRowCycle, Covers;
    TraceSafety(cfg, ops);
    RunKinds(cfg, ops);
    var log := Run(cfg, ops).value.log;
    forall i, j, b | 0 <= i < j < |log| && log[i].cmd.ty == Activate && IsRefresh(log[j].cmd.ty)
                     && Covers(cfg, log[i].cmd, b) && Covers(cfg, log[j].cmd, b)
      ensures log[j].clk >= log[i].clk + cfg.TRC()
    {
      RowCycleOf(cfg, log, i, j, b);
    }
  }

  ghost predicate RowCycleAlways(cfg: Config)
    requires ValidConfig(cfg)
  {
    forall ops :: Run(cfg, ops).Some? && RowCycleKept(cfg, Run(cfg, ops).value.log)
  }

  lemma ShortRowBreaks(cfg: Config, w: bool)
    requires ValidConfig(cfg) && cfg.closePage && Room(cfg, w) && !LongRow(cfg, w)
    ensures !RowCycleAlways(cfg)
  {
    var s := ShortRowRun(cfg, w);
    hide ValidConfig, Inv, Run, Covers, AccessType, ActTo, CloseTo;
    var ops :| Run(cfg, ops) == Some(s);
    assert !RowCycleKept(cfg, s.log);
  }

  /** The exact condition: where the first refresh leaves room to open a row, tRC is kept from
      activation to refresh in every run if and only if pages stay open or opening and closing a
      row takes that long, for reads and for writes. */
  lemma RowCycleIff(cfg: Config)
    requires ValidConfig(cfg) && (cfg.closePage ==> Room(cfg, false) && Room(cfg, true))
    ensures RowCycleAlways(cfg) <==> KeepsRowCycle(cfg)
  {
    hide ValidConfig, Run, Room, LongRow, RowCycleKept;
    if KeepsRowCycle(cfg) {
      forall ops ensures Run(cfg, ops).Some? && RowCycleKept(cfg, Run(cfg, ops).value.log) { RowCycleHolds(cfg, ops); }
    } else {
      ShortRowBreaks(cfg, LongRow(cfg, false));
    }
  }

  // ---------------------------------------------------------------- bank refresh to activation: tRFCb

  /** Every activation of a bank comes at least tRFCb after every earlier refresh of that bank alone. */
  ghost predicate RecoveryKept(cfg: Config, log: seq<Issued>) {
    forall i, j, b :: (0 <= i < j < |log| && log[i].cmd.ty == RefreshBank && log[j].cmd.ty == Activate
                       && Covers(cfg, log[i].cmd, b) && Covers(cfg, log[j].cmd, b)) ==>
                            log[j].clk >= log[i].clk + cfg.tRFCb
  }

  ghost predicate RecoveryAlways(cfg: Config)
    requires ValidConfig(cfg)
  {
    forall ops :: Run(cfg, ops).Some? && RecoveryKept(cfg, Run(cfg, ops).value.log)
  }

  predicate KeepsRecovery(cfg: Config) { cfg.refreshPolicy == RankLevelStaggered || cfg.tRFCb <= 1 }

  /** Without bank refreshes, or with a recovery of one cycle, every run keeps tRFCb. */
  lemma RecoveryHolds(cfg: Config, ops: seq<Op>)
    requires ValidConfig(cfg) && KeepsRecovery(cfg)
    ensures Run(cfg, ops).Some? && RecoveryKept(cfg, Run(cfg, ops).value.log)
  {
    hide ValidConfig, Run, Covers, Legal, ActivationsSpread, Spaced;
    TraceSafety(cfg, ops);
    RunKinds(cfg, ops);
    var log := Run(cfg, ops).value.log;
    forall i, j, b | 0 <= i < j < |log| && log[i].cmd.ty == RefreshBank && log[j].cmd.ty == Activate
                     && Covers(cfg, log[i].cmd, b) && Covers(cfg, log[j].cmd, b)
      ensures log[j].clk >= log[i].clk + cfg.tRFCb
    {
      assert KindOk(cfg, log[i].cmd);
    }
  }

  /** The bank is closed, takes an activation, and no activation is on record for its rank. */
  ghost predicate Untouched(cfg: Config, ch: Channel) {
    && Shaped(cfg, ch) && ch.refreshQ == [] && ValidBank(cfg, BankOf(ORIGIN)) && ch.fourAw[0] == []
    && ch.thirtyTwoAw[0] == []
    && ch.banks[BankOf(ORIGIN)].state == Closed && ch.banks[BankOf(ORIGIN)].timing[Activate] == 0
  }

  /** A bank refresh leaves its own bank as it was: the table consulted has nothing for it. */
  lemma RefreshLeaves(cfg: Config, ch: Channel, ref: Command, clk: int, ch': Channel)
    requires Sized(cfg) && ref.ty == RefreshBank && BankOf(ref.addr) == BankOf(ORIGIN)
    requires Shaped(cfg, ch) && ch.refreshQ == [ref] && Untouched(cfg, ch.(refreshQ := []))
    requires Ready(cfg, ch, ref, clk) && Update(cfg, ch, ref, clk) == Some(ch')
    ensures Untouched(cfg, ch')
  {
    var b := BankOf(ORIGIN);
    DroppedFront(cfg, ch, ref, clk);
    UpdateBank(cfg, ch, ref, clk, b);
    assert Consulted(cfg, ref, b) == [];
    assert ch'.fourAw == ch.fourAw && ch'.thirtyTwoAw == ch.thirtyTwoAw;
    hide Update, Consulted, Ready;
  }

  lemma FreshShut(cfg: Config, ch: Channel)
    requires Sized(cfg) && Shaped(cfg, ch) && ch.banks == InitialChannel(cfg).banks
    ensures ShutUntil(cfg, ch, 0)
  {
    FreshChannel(cfg, ORIGIN);
  }

  lemma FreshUntouched(cfg: Config, ch: Channel)
    requires Sized(cfg) && Shaped(cfg, ch) && ch == InitialChannel(cfg)
    ensures Untouched(cfg, ch)
  {
    OriginBank(cfg);
    FreshChannel(cfg, ORIGIN);
  }

  /** The first bank refresh goes out while a read of that bank becomes a command. */
  lemma RefreshTickLoads(cfg: Config, s: Ctrl) returns (s': Ctrl)
    requires Loaded(cfg, s, false) && s.clk == RefreshInterval(cfg) && cfg.refreshPolicy == BankLevelStaggered
    ensures Queued(cfg, s', false) && s'.clk == s.clk + 1 && Untouched(cfg, s'.ch)
    ensures s'.log == [Issued(s.clk, Target(cfg, 0))]
  {
    hide Inv, Choose, Update, Ready, Shapely, Shaped, Step, HomeQueues, TransHome, AtHome, Inserts, ValidConfig,
         RefreshTick, ScheduleTransaction, Supplied, InitialChannel, QueueIndex, AddressMap.ValidMapping, Untouched,
         ShutUntil, Target, RefreshCommand, RefreshInterval, InFront, ReadyCommand, Covers, Core;
    SizedConfig(cfg);
    OriginBank(cfg);
    ShapedNow(cfg, s, ORIGIN);
    FreshUntouched(cfg, s.ch);
    FreshShut(cfg, s.ch);
    ShutRow(cfg, s.ch, 0);
    FirstRefresh(cfg, s);
    var ref := Target(cfg, 0);
    FreshChannel(cfg, ORIGIN);
    FirstInFront(cfg, s, ref);
    var s1;
    s1, s' := FrontTick(cfg, s, ORIGIN, false, ref);
    ShutFrame(cfg, s.ch, s1.ch, 0);
    RefreshReady(cfg, s1.ch, ref, s.clk, 0);
    RefreshFrame(cfg, s);
    assert ref.ty == RefreshBank by { TargetKind(cfg); }
    RefreshLeaves(cfg, s1.ch, ref, s.clk, s'.ch);
    FillsBehind(cfg, s, s1, s', ref);
  }

  lemma TargetKind(cfg: Config)
    requires Sized(cfg) && cfg.refreshPolicy == BankLevelStaggered
    ensures Target(cfg, 0).ty == RefreshBank
  {
  }

  lemma FillsBehind(cfg: Config, s: Ctrl, s1: Ctrl, t: Ctrl, ref: Command)
    requires Loaded(cfg, s, false) && ValidConfig(cfg) && InFront(cfg, s, ref) && Covers(cfg, ref, BankOf(ORIGIN))
    requires IsRefresh(ref.ty)
    requires s1 == RefreshTick(cfg, s) && Shaped(cfg, s1.ch) && Addressed(cfg, ref)
    requires ReadyCommand(cfg, s1.ch, ref, s.clk) == Issue(ref)
    requires Reaches(cfg, t) && AtHome(cfg, t, ORIGIN, false) && Step(cfg, s, Tick) == Some(t)
    ensures Queued(cfg, t, false)
  {
    assert s1.ch.refreshQ[0] == ref;
    hide Past, InOrder, Core, Choose, Update, Ready, Shapely, Shaped, Step, HomeQueues, TransHome, AtHome, Inserts,
         ValidConfig, RefreshTick, ScheduleTransaction, Supplied, InitialChannel, QueueIndex, AddressMap.ValidMapping,
         InFront, ReadyCommand, Covers;
    SizedConfig(cfg);
    OriginBank(cfg);
    ShapedNow(cfg, s, ORIGIN);
    FreshChannel(cfg, ORIGIN);
    var s1', s2, s' := TickHalves(cfg, s);
    RefreshFrame(cfg, s);
    HomeParts(cfg, s, ORIGIN, false);
    ChooseFront(cfg, s1, ORIGIN, false);
    ChosenHome(cfg, s1, ORIGIN, false);
    SuppliedFrame(cfg, s, s2, false);
    HomeFrame(cfg, s, s2, false);
    SupplyMoves(cfg, s2, ORIGIN, false);
    ShapedNow(cfg, t, ORIGIN);
  }

  /** The commands of the run: a bank is refreshed, and activated in the next cycle. */
  ghost predicate NoRecovery(cfg: Config, log: seq<Issued>) {
    && |log| == 2 && log[0].cmd.ty == RefreshBank && log[1].cmd.ty == Activate && log[1].clk == log[0].clk + 1
    && Covers(cfg, log[0].cmd, BankOf(ORIGIN)) && Covers(cfg, log[1].cmd, BankOf(ORIGIN))
  }

  lemma NotEveryCycle(cfg: Config, g: RefreshGen)
    requires ValidConfig(cfg) && 2 <= RefreshInterval(cfg) && g.clk == RefreshInterval(cfg) + 1
    ensures !Inserts(cfg, g)
  {
    Arith.DivUnique(g.clk, RefreshInterval(cfg), 1, 1);
  }

  lemma NoRecoveryRun(cfg: Config) returns (s: Ctrl)
    requires ValidConfig(cfg) && cfg.refreshPolicy == BankLevelStaggered && 2 <= RefreshInterval(cfg)
    ensures Reaches(cfg, s) && NoRecovery(cfg, s.log)
  {
    hide ValidConfig, Inv, Loaded, Idle, Inserts, AtHome, RefreshInterval, Untouched, Target, Update, Ready, Shaped,
         QueueIndex, AccessType, Covers;
    SizedConfig(cfg);
    OriginBank(cfg);
    s := IdleFor(cfg, RefreshInterval(cfg));
    s := Load(cfg, s, false);
    s := RefreshTickLoads(cfg, s);
    var ref := s.log[0];
    ShapedNow(cfg, s, ORIGIN);
    NotEveryCycle(cfg, s.ref);
    UntouchedRow(cfg, s.ch);
    var act := Command(Activate, ORIGIN, s.cq.queues[0][0].hexAddr);
    assert HomeOffer(cfg, s, ORIGIN, false) == Issue(act);
    s := HomeTick(cfg, s, ORIGIN, false);
    IsNoRecovery(cfg, s.log);
  }

  lemma UntouchedRow(cfg: Config, ch: Channel)
    requires Untouched(cfg, ch)
    ensures Shaped(cfg, ch) && ch.refreshQ == [] && |ch.fourAw| > 0 && |ch.thirtyTwoAw| > 0
    ensures ch.fourAw[0] == [] && ch.thirtyTwoAw[0] == []
    ensures ValidBank(cfg, BankOf(ORIGIN))
    ensures var b := ch.banks[BankOf(ORIGIN)]; b.state == Closed && b.timing[Activate] == 0
  {
  }

  lemma IsNoRecovery(cfg: Config, log: seq<Issued>)
    requires Sized(cfg) && |log| == 2 && log[0].cmd == Target(cfg, 0) && log[1].cmd.ty == Activate
    requires log[1].cmd.addr == ORIGIN
    requires log[1].clk == log[0].clk + 1 && cfg.refreshPolicy == BankLevelStaggered
    ensures NoRecovery(cfg, log)
  {
    OriginBank(cfg);
    CountZero(cfg);
  }

  /** The exact condition: unless a bank is refreshed in every cycle, tRFCb is kept from the refresh
      of a bank to its activation in every run if and only if there are no bank refreshes or one
      cycle is enough. */
  lemma RecoveryIff(cfg: Config)
    requires ValidConfig(cfg) && (cfg.refreshPolicy == BankLevelStaggered ==> 2 <= cfg.tREFIb)
    ensures RecoveryAlways(cfg) <==> KeepsRecovery(cfg)
  {
    if KeepsRecovery(cfg) {
      hide ValidConfig, Run, RecoveryKept;
      forall ops ensures Run(cfg, ops).Some? && RecoveryKept(cfg, Run(cfg, ops).value.log) { RecoveryHolds(cfg, ops); }
    } else {
      var s := NoRecoveryRun(cfg);
      hide ValidConfig, Inv, Run, Covers;
      var ops :| Run(cfg, ops) == Some(s);
      assert !RecoveryKept(cfg, s.log);
    }
  }

  // ---------------------------------------------------------------- the runtime's own memory

  /** custom_dram_configs/DDR4_8Gb_x16_3200.ini, with the defaults of configuration.cc for what it leaves out. */
  const DDR4_3200 := Config(
    DDR4, 1, 2, 2, 4, 65536, 1024, 64, 8, [Ro, Ch, Ra, Ba, Bg, Co],
    4, 0, 22, 16, 8, 4, 1, 12, 12, 4, 24, 22, 11, 9, 52, 22, 560, 9, 576, 20, 12480, 1950, 48, 0, 330, 24, 20,
    false, false, false, 8, 32, RankLevelStaggered)

  lemma RuntimeValid(closed: bool, policy: RefreshPolicy)
    ensures ValidConfig(DDR4_3200.(closePage := closed, refreshPolicy := policy))
  {
    var m := DDR4_3200.mapping;
    assert m[0] == Ro && m[1] == Ch && m[2] == Ra && m[3] == Ba && m[4] == Bg && m[5] == Co;
    assert AddressMap.AllFields(m) by {
      forall f: Field ensures f in m {
        match f
        case Ch => case Ra => case Bg => case Ba => case Ro => case Co =>
      }
    }
    assert AddressMap.Log2(8) == 3;
    assert AddressMap.Log2(1024) >= 3;
  }

  /** As it is shipped, with open pages and rank refreshes, the memory of the runtime keeps both
      distances in every run. */
  lemma RuntimeKeeps()
    ensures ValidConfig(DDR4_3200) && RowCycleAlways(DDR4_3200) && RecoveryAlways(DDR4_3200)
  {
    RuntimeValid(false, RankLevelStaggered);
    assert DDR4_3200 == DDR4_3200.(closePage := false, refreshPolicy := RankLevelStaggered);
    hide ValidConfig, RowCycleAlways, RecoveryAlways;
    RowCycleIff(DDR4_3200);
    RecoveryIff(DDR4_3200);
  }

  /** With CLOSE_PAGE there is a run in which it refreshes a rank 56 cycles after activating a bank of
      it, where tRC is 74. */
  lemma RuntimeShortRow() returns (ops: seq<Op>)
    ensures var cfg := DDR4_3200.(closePage := true);
      && ValidConfig(cfg) && cfg.TRC() == 74 && Run(cfg, ops).Some?
      && var log := Run(cfg, ops).value.log;
        && |log| == 3 && log[0].cmd.ty == Activate && log[2].cmd.ty == Refresh
        && log[2].cmd.addr.rank == log[0].cmd.addr.rank && log[2].clk == log[0].clk + 56
  {
    var cfg := DDR4_3200.(closePage := true);
    RuntimeValid(true, RankLevelStaggered);
    assert RefreshInterval(cfg) == 6240;
    hide ValidConfig, Inv, Run;
    var s := ShortRowRun(cfg, false);
    ops :| Run(cfg, ops) == Some(s);
    RunKinds(cfg, ops);
    assert KindOk(cfg, s.log[2].cmd);
  }

  /** With BANK_LEVEL_STAGGERED there is a run in which it activates a bank in the cycle after its
      refresh, where tRFCb is 20. */
  lemma RuntimeNoRecovery() returns (ops: seq<Op>)
    ensures var cfg := DDR4_3200.(refreshPolicy := BankLevelStaggered);
      && ValidConfig(cfg) && cfg.tRFCb == 20 && Run(cfg, ops).Some?
      && var log := Run(cfg, ops).value.log;
        && |log| == 2 && log[0].cmd.ty == RefreshBank && log[1].cmd.ty == Activate
        && BankOf(log[0].cmd.addr) == BankOf(log[1].cmd.addr) && log[1].clk == log[0].clk + 1
  {
    var cfg := DDR4_3200.(refreshPolicy := BankLevelStaggered);
    RuntimeValid(false, BankLevelStaggered);
    assert RefreshInterval(cfg) == 1950;
    hide ValidConfig, Inv, Run;
    var s := NoRecoveryRun(cfg);
    ops :| Run(cfg, ops) == Some(s);
  }
}
