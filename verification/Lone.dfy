/** A controller that serves one read at a time: what each tick does to it, whichever refreshes wait. */
module Lone {
  import opened Common
  import opened Channels
  import opened ChannelProofs
  import opened CommandQueues
  import opened QueueProofs
  import opened Controllers
  import opened ControllerProofs
  import opened RefreshProofs
  import opened Runs
  import opened Progress
  import opened Scenes
  import opened Trace
  import opened Options
  import AddressMap

  /** No transaction waits outside the command queues. */
  ghost predicate Spare(s: Ctrl) { s.unified == [] && s.readQ == [] && s.writeBuf == [] && s.draining == 0 }

  lemma SpareSchedule(cfg: Config, s: Ctrl)
    requires ValidConfig(cfg) && Spare(s)
    ensures ScheduleTransaction(cfg, s) == s
  {
    hide AddressMap.ValidMapping;
  }

  lemma {:induction false} NoKeys(qs: seq<seq<Command>>)
    requires forall k :: 0 <= k < |qs| ==> qs[k] == []
    ensures QueueKeys(qs) == multiset{}
  {
    if qs != [] {
      NoKeys(qs[..|qs| - 1]);
      assert CmdKeys(qs[|qs| - 1]) == [];
    }
  }

  /** With nothing waiting, nothing is pending. */
  lemma NothingPending(s: Ctrl)
    requires OneEach(s) && Spare(s) && QueueEmpty(s.cq)
    ensures Empty(s)
  {
    NoKeys(s.cq.queues);
    assert TransKeys([]) == [];
    assert Waiting(s) == multiset{};
    assert s.pendingRd != [] ==> Has(s.pendingRd, s.pendingRd[0].addr);
    assert s.pendingWr != [] ==> Has(s.pendingWr, s.pendingWr[0].addr);
    assert s.pendingRd != [] ==> Waiting(s)[Key(s.pendingRd[0].addr, false)] == 0;
    assert s.pendingWr != [] ==> Waiting(s)[Key(s.pendingWr[0].addr, true)] == 0;
  }

  /** At most one command waits, a read of `home`. */
  ghost predicate Single(cfg: Config, s: Ctrl, home: Address) {
    && Reaches(cfg, s) && AtHome(cfg, s, home, false) && Spare(s)
    && 0 <= QueueIndex(cfg, home) < |s.cq.queues| && |s.cq.queues[QueueIndex(cfg, home)]| <= 1
  }

  /** What the reads and their answers go through in a tick that does `r`. */
  ghost predicate Answers(cfg: Config, s: Ctrl, s': Ctrl, r: Pick) {
    if r.Issue? && IsRead(r.cmd.ty) then
      && s'.pendingRd == Others(s.pendingRd, r.cmd.hexAddr)
      && s'.returnQ == s.returnQ + Completed(Matching(s.pendingRd, r.cmd.hexAddr), s.clk + cfg.ReadDelay())
    else s'.pendingRd == s.pendingRd && s'.returnQ == s.returnQ
  }

  /** The effect of a tick that does `r`. Refreshes may join the waiting line. */
  ghost predicate Advanced(cfg: Config, s: Ctrl, s': Ctrl, r: Pick)
    requires Shaped(cfg, s.ch)
  {
    && s'.clk == s.clk + 1 && Answers(cfg, s, s', r)
    && match r
      case Abort => false
      case Wait => s'.ch == s.ch.(refreshQ := s'.ch.refreshQ) && s'.log == s.log && s'.cq.queues == s.cq.queues
      case Issue(cmd) =>
        && s'.log == s.log + [Issued(s.clk, cmd)]
        && (exists q ::
              && Ready(cfg, s.ch.(refreshQ := q), cmd, s.clk)
              && Update(cfg, s.ch.(refreshQ := q), cmd, s.clk) == Some(s'.ch))
        && (if IsReadWrite(cmd.ty) then QueueEmpty(s'.cq) else s'.cq.queues == s.cq.queues)
  }

  /** The one command that waits leaves. */
  lemma LastLeaves(cfg: Config, s: Ctrl, q: CmdQueue, cmd: Command, i: int, p: int, m: int, home: Address)
    requires AddressMap.ValidMapping(cfg) && Placed(cfg, s.cq.queues) && HomeQueues(cfg, s.cq.queues, home, false)
    requires cfg.Banks() != 0
    requires 0 <= QueueIndex(cfg, home) < |s.cq.queues| && |s.cq.queues[QueueIndex(cfg, home)]| <= 1
    requires ServesQueue(cfg, s, q, cmd, i, p, m) && IsReadWrite(cmd.ty)
    ensures QueueEmpty(q)
  {
    hide RefreshState, Placed, HomeQueues, QueueIndex, AddressMap.ValidMapping, StepOf;
    forall k | 0 <= k < |s.cq.queues| ensures k != QueueIndex(cfg, home) ==> s.cq.queues[k] == [] {
      LoneQueue(cfg, s.cq.queues, home, false, k);
    }
  }

  lemma ChosenQueues(cfg: Config, s: Ctrl, home: Address)
    requires Core(cfg, s) && Shapely(cfg, s) && HomeQueues(cfg, s.cq.queues, home, false)
    requires 0 <= QueueIndex(cfg, home) < |s.cq.queues| && |s.cq.queues[QueueIndex(cfg, home)]| <= 1
    ensures var (q, r) := Choose(cfg, s); r.Issue? && IsReadWrite(r.cmd.ty) ==> QueueEmpty(q)
  {
    hide Tracks, Choose, RefreshState, QueuesShaped, Ready, AddressMap.ValidMapping, HomeQueues, StepOf, Placed,
         QueueEmpty, ServesQueue, OneEach, NoneLost, Ordered, Sides;
    var i, p, m := ChooseOk(cfg, s);
    var (q, r) := Choose(cfg, s);
    if r.Issue? && IsReadWrite(r.cmd.ty) && ServesQueue(cfg, s, q, r.cmd, i, p, m) {
      LastLeaves(cfg, s, q, r.cmd, i, p, m, home);
    }
  }

  /** The one command that waits is a read of `home`. */
  lemma WaitingRead(cfg: Config, s: Ctrl, home: Address)
    requires Single(cfg, s, home) && |s.cq.queues[QueueIndex(cfg, home)]| == 1
    ensures var c := s.cq.queues[QueueIndex(cfg, home)][0];
      c.addr == home && c.ty == AccessType(cfg, false) && Goes(cfg, c.hexAddr, home)
  {
    hide Tracks, RefreshState, QueuesShaped, OneEach, NoneLost, Ordered, Sides, Past, InOrder, AddressMap.ValidMapping,
         TransHome, QueueIndex, Goes;
    LoneQueue(cfg, s.cq.queues, home, false, QueueIndex(cfg, home));
    assert HomeCmd(cfg, s.cq.queues[QueueIndex(cfg, home)][0], home, false);
  }

  /** What the queue at home offers is a step of its read. */
  lemma OfferKind(cfg: Config, s: Ctrl, home: Address)
    requires Single(cfg, s, home) && Shaped(cfg, s.ch) && ValidBank(cfg, BankOf(home))
    ensures var r := HomeOffer(cfg, s, home, false);
      r.Issue? ==> r.cmd.addr == home && (IsRead(r.cmd.ty) || r.cmd.ty in {Activate, Precharge})
  {
    hide Reaches, AtHome, Spare, QueueIndex, Shaped;
    if |s.cq.queues[QueueIndex(cfg, home)]| == 1 { WaitingRead(cfg, s, home); }
  }

  /** The effect of a tick that does what the queue at home offers. */
  ghost predicate AdvancedHome(cfg: Config, s: Ctrl, s': Ctrl, home: Address) {
    && Shaped(cfg, s.ch) && ValidBank(cfg, BankOf(home)) && 0 <= QueueIndex(cfg, home) < |s.cq.queues|
    && Advanced(cfg, s, s', HomeOffer(cfg, s, home, false))
  }

  lemma Advances(cfg: Config, s: Ctrl, s1: Ctrl, s2: Ctrl, s': Ctrl, q: CmdQueue, r: Pick)
    requires Shaped(cfg, s.ch) && Shaped(cfg, s1.ch) && s1 == s.(ref := s1.ref, ch := s1.ch)
    requires s1.ch == s.ch.(refreshQ := s1.ch.refreshQ)
    requires StepForm(cfg, s1, s2, q, r) && s' == s2.(clk := s.clk + 1, cq := s2.cq.(clk := s2.cq.clk + 1))
    requires r.Issue? && IsReadWrite(r.cmd.ty) ==> QueueEmpty(q)
    requires !(r.Issue? && IsReadWrite(r.cmd.ty)) ==> q.queues == s.cq.queues
    ensures Advanced(cfg, s, s', r) && (Spare(s) ==> Spare(s'))
  {
    hide Ready, Update, Shaped, Others, Matching, Completed;
  }

  lemma SpareForm(cfg: Config, s: Ctrl, s': Ctrl, q: CmdQueue, r: Pick)
    requires Shaped(cfg, s.ch) && StepForm(cfg, s, s', q, r) && Spare(s)
    ensures Spare(s')
  {
    hide Ready, Update, Shaped;
  }

  lemma SpareFrame(s: Ctrl, s': Ctrl)
    requires Spare(s) && s' == s.(ref := s'.ref, ch := s'.ch, clk := s'.clk, cq := s'.cq)
    ensures Spare(s')
  {
  }

  /** The queue at home decides what the tick does. */
  ghost predicate HomeDecides(cfg: Config, s: Ctrl, home: Address) {
    && ValidConfig(cfg) && Shaped(cfg, s.ch) && ValidBank(cfg, BankOf(home))
    && 0 <= QueueIndex(cfg, home) < |s.cq.queues| && Shapely(cfg, RefreshTick(cfg, s))
    && Choose(cfg, RefreshTick(cfg, s)).1 == HomeOffer(cfg, s, home, false)
  }

  lemma LoneTick(cfg: Config, s: Ctrl, home: Address) returns (s': Ctrl)
    requires Single(cfg, s, home) && HomeDecides(cfg, s, home)
    ensures Step(cfg, s, Tick) == Some(s') && AdvancedHome(cfg, s, s', home) && Single(cfg, s', home)
  {
    hide Core, Past, InOrder, Choose, Update, Ready, Shapely, Shaped, Step, HomeQueues, TransHome, ValidConfig,
         RefreshTick, ScheduleTransaction, QueueIndex, AddressMap.ValidMapping, Offer, QueueEmpty, Advanced, StepForm,
         Spare, AtHome;
    HomeParts(cfg, s, home, false);
    var s1, s2;
    s1, s' := TickHome(cfg, s, home, false);
    s1, s2, s' := TickHalves(cfg, s);
    CoreShapely(cfg, s1);
    RefreshFrame(cfg, s);
    ChosenHome(cfg, s1, home, false);
    ChosenQueues(cfg, s1, home);
    var r := HomeOffer(cfg, s, home, false);
    assert Spare(s1) by { SpareFrame(s, s1); }
    SpareForm(cfg, s1, s2, Choose(cfg, s1).0, r);
    SpareSchedule(cfg, s2);
    Advances(cfg, s, s1, s2, s', Choose(cfg, s1).0, r);
    ReachStep(cfg, s, Tick, s');
    StillSingle(cfg, s, s', home, r);
  }

  lemma AdvancedParts(cfg: Config, s: Ctrl, s': Ctrl, r: Pick)
    requires Shaped(cfg, s.ch) && Advanced(cfg, s, s', r)
    ensures s'.log == s.log + if r.Issue? then [Issued(s.clk, r.cmd)] else []
    ensures s'.cq.queues == s.cq.queues || QueueEmpty(s'.cq)
  {
    hide Update, Ready, Shaped;
  }

  lemma StillSingle(cfg: Config, s: Ctrl, s': Ctrl, home: Address, r: Pick)
    requires Single(cfg, s, home) && Reaches(cfg, s') && AtHome(cfg, s', home, false) && Spare(s')
    requires Shaped(cfg, s.ch) && Advanced(cfg, s, s', r) && ValidBank(cfg, BankOf(home))
    ensures Single(cfg, s', home)
  {
    hide Reaches, AtHome, Spare, Shaped, QueueIndex, Update, Ready, Advanced, ValidBank;
    ShapedNow(cfg, s', home);
    AdvancedParts(cfg, s, s', r);
  }

  lemma AdvancedFrom(cfg: Config, s: Ctrl, s': Ctrl, cmd: Command) returns (ch: Channel)
    requires Shaped(cfg, s.ch) && Advanced(cfg, s, s', Issue(cmd))
    ensures ch == s.ch.(refreshQ := ch.refreshQ) && Shaped(cfg, ch) && Ready(cfg, ch, cmd, s.clk)
    ensures Update(cfg, ch, cmd, s.clk) == Some(s'.ch)
  {
    hide Update;
    var q :|
      Ready(cfg, s.ch.(refreshQ := q), cmd, s.clk) && Update(cfg, s.ch.(refreshQ := q), cmd, s.clk) == Some(s'.ch);
    ch := s.ch.(refreshQ := q);
  }

  // ---------------------------------------------------------------- a read arrives

  /** One read waits to become a command. */
  ghost predicate OneWaits(cfg: Config, s: Ctrl, t: Transaction) {
    && s.writeBuf == [] && s.draining == 0 && !t.isWrite
    && if cfg.unifiedQueue then s.unified == [t] && s.readQ == [] else s.unified == [] && s.readQ == [t]
  }

  lemma OneMoves(cfg: Config, s: Ctrl, t: Transaction, home: Address)
    requires ValidConfig(cfg) && OneWaits(cfg, s, t) && Goes(cfg, t.addr, home) && QueueEmpty(s.cq)
    requires 0 <= QueueIndex(cfg, home) < |s.cq.queues|
    ensures var s' := ScheduleTransaction(cfg, s);
      && Spare(s') && s' == s.(cq := s'.cq, unified := [], readQ := []) && |s'.cq.queues| == |s.cq.queues|
      && |s'.cq.queues[QueueIndex(cfg, home)]| == 1 && s'.cq.queues[QueueIndex(cfg, home)][0].hexAddr == t.addr
  {
    SizedConfig(cfg);
    var ts := if cfg.unifiedQueue then s.unified else s.readQ;
    FirstFits(cfg, s.cq, ts, home, false);
    hide AddressMap.ValidMapping, QueueIndex, FirstAccepted, Goes, AddressMap.AddressMapping;
  }

  lemma AddOne(cfg: Config, s: Ctrl, a: nat)
    requires ValidConfig(cfg) && Empty(s)
    ensures var t, s' := Transaction(a, false, s.clk, 0), AddTransaction(cfg, s, a, false);
      && OneWaits(cfg, s', t) && s'.pendingRd == [t]
      && s'.log == s.log && s'.ch == s.ch && s'.cq == s.cq && s'.clk == s.clk && s'.ref == s.ref
      && s'.returnQ == s.returnQ
  {
    hide AddressMap.ValidMapping;
  }

  lemma EmptyNow(cfg: Config, s: Ctrl, home: Address)
    requires Single(cfg, s, home) && QueueEmpty(s.cq)
    ensures Empty(s)
  {
    hide Device, Past, InOrder, AtHome, Placed, Sides, NoneLost, Ordered, SingleWrites, Spare, OneEach, Empty;
    NothingPending(s);
  }

  /** An idle controller is ready for a read anywhere. */
  lemma EmptySingle(cfg: Config, s: Ctrl, home: Address)
    requires Reaches(cfg, s) && Empty(s) && ValidBank(cfg, BankOf(home))
    ensures Single(cfg, s, home)
  {
    hide Inv, ValidConfig, QueueIndex, AtHome;
    ShapedNow(cfg, s, home);
    EmptyHome(cfg, s, home, false);
  }

  /** A read arrives at the idle controller. */
  lemma Arrives(cfg: Config, s: Ctrl, home: Address, a: nat) returns (s': Ctrl)
    requires Reaches(cfg, s) && Empty(s) && ValidConfig(cfg) && Goes(cfg, a, home)
    ensures s' == AddTransaction(cfg, s, a, false) && WillAcceptTransaction(cfg, s, false)
    ensures Reaches(cfg, s') && AtHome(cfg, s', home, false) && OneWaits(cfg, s', Transaction(a, false, s.clk, 0))
    ensures s'.pendingRd == [Transaction(a, false, s.clk, 0)] && s'.returnQ == s.returnQ && s'.ref == s.ref
    ensures s'.log == s.log && s'.ch == s.ch && s'.cq == s.cq && s'.clk == s.clk
  {
    hide Inv, AtHome, Empty, AddTransaction, WillAcceptTransaction, OneWaits, Supplied, ValidConfig, Goes, QueueEmpty;
    MappingOk(cfg);
    AddedToEmpty(cfg, s, a, home, false);
    AddOne(cfg, s, a);
    s' := AddTransaction(cfg, s, a, false);
    ReachStep(cfg, s, Add(a, false), s');
  }

  /** The read becomes a command. */
  lemma Feeds(cfg: Config, s: Ctrl, home: Address, tr: Transaction) returns (s': Ctrl)
    requires Reaches(cfg, s) && AtHome(cfg, s, home, false) && OneWaits(cfg, s, tr) && QueueEmpty(s.cq)
    requires HomeDecides(cfg, s, home) && Goes(cfg, tr.addr, home)
    ensures Step(cfg, s, Tick) == Some(s') && Single(cfg, s', home)
    ensures |s'.cq.queues[QueueIndex(cfg, home)]| == 1 && s'.cq.queues[QueueIndex(cfg, home)][0].hexAddr == tr.addr
    ensures s'.clk == s.clk + 1 && s'.log == s.log && s'.ch.banks == s.ch.banks
    ensures s'.ch == s.ch.(refreshQ := s'.ch.refreshQ) && s'.pendingRd == s.pendingRd && s'.returnQ == s.returnQ
  {
    hide Core, Past, InOrder, Choose, Update, Ready, Shapely, Shaped, Step, HomeQueues, TransHome, ValidConfig,
         RefreshTick, ScheduleTransaction, QueueIndex, AddressMap.ValidMapping, Spare, AtHome, Goes, OneWaits;
    ShapedNow(cfg, s, home);
    HomeParts(cfg, s, home, false);
    var s1, s2;
    s1, s' := TickHome(cfg, s, home, false);
    s1, s2, s' := TickHalves(cfg, s);
    RefreshFrame(cfg, s);
    ChosenHome(cfg, s1, home, false);
    assert Choose(cfg, s1).1 == Wait;
    OneWaitsFrame(cfg, s, s2, tr);
    OneMoves(cfg, s2, tr, home);
    SpareFrame(ScheduleTransaction(cfg, s2), s');
    ReachStep(cfg, s, Tick, s');
  }

  lemma OneWaitsFrame(cfg: Config, s: Ctrl, s': Ctrl, t: Transaction)
    requires OneWaits(cfg, s, t) && s'.unified == s.unified && s'.readQ == s.readQ && s'.writeBuf == s.writeBuf
    requires s'.draining == s.draining
    ensures OneWaits(cfg, s', t)
  {
  }

  // ---------------------------------------------------------------- nothing to do but refreshes

  /** With nothing to serve, a tick issues what the refresh in front needs, or nothing. */
  lemma EmptyPick(cfg: Config, s: Ctrl)
    requires Core(cfg, s) && Shapely(cfg, s) && QueueEmpty(s.cq)
    ensures var (q, r) := Choose(cfg, s);
      && q.queues == s.cq.queues
      && (r.Issue? ==> s.ch.refreshQ != [] && (r.cmd == s.ch.refreshQ[0] || r.cmd.ty == Precharge))
    ensures var r := Choose(cfg, s).1; r.Issue? ==> !IsReadWrite(r.cmd.ty)
  {
    hide Tracks, Books, Choose, RefreshState, QueuesShaped, Ready, ValidConfig;
    var i, p, m := ChooseOk(cfg, s);
  }

  lemma EmptyTick(cfg: Config, s: Ctrl) returns (s': Ctrl)
    requires Reaches(cfg, s) && Empty(s)
    ensures Step(cfg, s, Tick) == Some(s') && Reaches(cfg, s') && Empty(s') && s'.clk == s.clk + 1
    ensures s'.returnQ == s.returnQ
  {
    hide Core, Past, InOrder, Choose, Update, Ready, Shapely, Shaped, Step, ValidConfig, RefreshTick,
         ScheduleTransaction;
    var s1, s2;
    s1, s2, s' := TickHalves(cfg, s);
    RefreshFrame(cfg, s);
    EmptyPick(cfg, s1);
    assert Empty(s2);
    NothingToSchedule(cfg, s2);
    ReachStep(cfg, s, Tick, s');
  }
}
