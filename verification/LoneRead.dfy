/** A read that arrives at an idle controller is answered: after ticks enough, and between two
    refreshes, it is issued, and then called back. */
module LoneRead {
  import opened Common
  import opened Timing
  import opened Banks
  import opened Channels
  import opened ChannelProofs
  import opened CommandQueues
  import opened Controllers
  import opened ControllerProofs
  import opened RefreshProofs
  import opened Runs
  import opened Progress
  import opened BankProgress
  import opened Service
  import opened Scenes
  import opened Lone
  import opened Trace
  import opened Options
  import AddressMap
  import Arith

  /** There is time between two refreshes to serve the one and then a read, whatever rows are open. */
  ghost predicate Roomy(cfg: Config, k: nat) {
    && ValidConfig(cfg) && DelaysWithin(cfg, k) && cfg.tFAW <= k && (cfg.IsGDDR() ==> cfg.t32AW <= k)
    && (cfg.refreshPolicy == RankLevelStaggered || cfg.perRankQueues)
    && ServiceTime(cfg, k) + 3 * (k + 1) + 1 <= RefreshInterval(cfg)
  }

  // ---------------------------------------------------------------- how far a read has to go

  /** Commands before the read itself: a precharge if another row is open, an activation if the row is not. */
  function Stage(ch: Channel, home: Address): nat {
    if BankOf(home) !in ch.banks || ch.banks[BankOf(home)].state != Open then 1
    else if ch.banks[BankOf(home)].openRow == home.row then 0 else 2
  }

  /** By cycle `due` the bank and the activation windows are past what they wait for. */
  ghost predicate ReadyBy(cfg: Config, ch: Channel, home: Address, due: int) {
    && Shaped(cfg, ch) && ValidBank(cfg, BankOf(home)) && var b := ch.banks[BankOf(home)];
    && b.timing[Precharge] <= due && b.timing[Activate] <= due && b.timing[AccessType(cfg, false)] <= due
    && (Stage(ch, home) > 0 ==> ActivationWindowOk(cfg, ch, home.rank, due))
  }

  lemma WindowStaysOk(window: seq<int>, clk: int, later: int, n: nat)
    requires WindowOk(window, clk, n) && clk <= later
    ensures WindowOk(window, later, n)
  {
  }

  /** If the queue at home offers nothing, something is not past yet. */
  lemma WaitsFor(cfg: Config, s: Ctrl, home: Address, due: int)
    requires ReadyBy(cfg, s.ch, home, due) && 0 <= QueueIndex(cfg, home) < |s.cq.queues|
    requires s.cq.queues[QueueIndex(cfg, home)] != [] && HomeOffer(cfg, s, home, false) == Wait
    ensures s.clk < due
  {
    hide QueueIndex, AccessType, WindowOk;
    if s.clk >= due && Stage(s.ch, home) > 0 {
      WindowStaysOk(s.ch.fourAw[home.rank], due, s.clk, 4);
      if cfg.IsGDDR() { WindowStaysOk(s.ch.thirtyTwoAw[home.rank], due, s.clk, 32); }
    }
  }

  /** A command of the read moves each timer of its bank by at most one delay. */
  lemma TimerMovesOn(cfg: Config, k: nat, ch: Channel, cmd: Command, home: Address, clk: int, ch': Channel,
                     ty: CommandType)
    requires Shaped(cfg, ch) && ValidBank(cfg, BankOf(home)) && DelaysWithin(cfg, k)
    requires cmd.ty in {Activate, Precharge} && cmd.addr == home
    requires Ready(cfg, ch, cmd, clk) && Update(cfg, ch, cmd, clk) == Some(ch') && Shaped(cfg, ch')
    ensures ch'.banks[BankOf(home)].timing[ty] <= Max(ch.banks[BankOf(home)].timing[ty], clk + k)
  {
    hide Update, Ready, DelaysWithin, Consulted, BankMoved, Covers, KindOk;
    var b := BankOf(home);
    KindPlain(cfg, cmd);
    DelaysAt(cfg, k, cmd, b);
    UpdateBank(cfg, ch, cmd, clk, b);
    TimerLimit(ch.banks[b], ch'.banks[b], Covers(cfg, cmd, b), cmd, Consulted(cfg, cmd, b), clk, ty, k);
  }

  lemma MovesOn(cfg: Config, k: nat, ch: Channel, cmd: Command, home: Address, clk: int, due: int, ch': Channel)
    requires ReadyBy(cfg, ch, home, due) && DelaysWithin(cfg, k) && cmd.ty in {Activate, Precharge} && cmd.addr == home
    requires Ready(cfg, ch, cmd, clk) && Update(cfg, ch, cmd, clk) == Some(ch')
    requires cmd.ty == Precharge ==> ch.banks[BankOf(home)].openRow != home.row
    ensures ReadyBy(cfg, ch', home, Max(due, clk + k)) && Stage(ch', home) + 1 == Stage(ch, home)
  {
    hide Update, Ready, DelaysWithin, Stage, WindowOk, AccessType, Shaped;
    UpdateShaped(cfg, ch, cmd, clk);
    StageFalls(cfg, ch, cmd, home, clk, ch');
    TimerMovesOn(cfg, k, ch, cmd, home, clk, ch', Precharge);
    TimerMovesOn(cfg, k, ch, cmd, home, clk, ch', Activate);
    TimerMovesOn(cfg, k, ch, cmd, home, clk, ch', AccessType(cfg, false));
    if Stage(ch', home) > 0 {
      WindowStaysOk(ch.fourAw[home.rank], due, Max(due, clk + k), 4);
      if cfg.IsGDDR() { WindowStaysOk(ch.thirtyTwoAw[home.rank], due, Max(due, clk + k), 32); }
    }
  }

  lemma KindPlain(cfg: Config, cmd: Command)
    requires cmd.ty in {Activate, Precharge}
    ensures KindOk(cfg, cmd)
  {
  }

  lemma StageFalls(cfg: Config, ch: Channel, cmd: Command, home: Address, clk: int, ch': Channel)
    requires Shaped(cfg, ch) && cmd.ty in {Activate, Precharge} && cmd.addr == home
    requires Ready(cfg, ch, cmd, clk) && Update(cfg, ch, cmd, clk) == Some(ch') && ValidBank(cfg, BankOf(home))
    requires cmd.ty == Precharge ==> ch.banks[BankOf(home)].openRow != home.row
    ensures Stage(ch', home) + 1 == Stage(ch, home)
    ensures Stage(ch', home) > 0 ==> ch'.fourAw == ch.fourAw && ch'.thirtyTwoAw == ch.thirtyTwoAw
  {
    hide Update, Consulted;
    var b := BankOf(home);
    assert Covers(cfg, cmd, b);
    UpdateBank(cfg, ch, cmd, clk, b);
    if cmd.ty == Precharge { SameWindows(cfg, ch, cmd, clk, ch'); }
  }

  lemma SameWindows(cfg: Config, ch: Channel, cmd: Command, clk: int, ch': Channel)
    requires cmd.ty == Precharge && Update(cfg, ch, cmd, clk) == Some(ch')
    ensures ch'.fourAw == ch.fourAw && ch'.thirtyTwoAw == ch.thirtyTwoAw
  {
  }

  // ---------------------------------------------------------------- between two refreshes

  /** No refresh waits, and none is inserted this cycle: the cycle is between the j-th insertion and the next. */
  ghost predicate Window(cfg: Config, s: Ctrl, j: nat) {
    ValidConfig(cfg) && s.ch.refreshQ == [] && j * RefreshInterval(cfg) < s.clk < (j + 1) * RefreshInterval(cfg)
  }

  lemma NoInsertion(cfg: Config, g: RefreshGen, j: nat)
    requires ValidConfig(cfg) && j * RefreshInterval(cfg) < g.clk < (j + 1) * RefreshInterval(cfg)
    ensures !Inserts(cfg, g)
  {
    var t := RefreshInterval(cfg);
    assert (j + 1) * t == j * t + t;
    Arith.DivUnique(g.clk, t, j, g.clk - j * t);
  }

  lemma InsertedSoFar(cfg: Config, clk: nat, j: nat)
    requires ValidConfig(cfg) && j * RefreshInterval(cfg) < clk <= (j + 1) * RefreshInterval(cfg)
    ensures Insertions(cfg, clk) == j
  {
    var t := RefreshInterval(cfg);
    assert (j + 1) * t == j * t + t;
    Arith.MulMono(0, j, t);
    Arith.DivUnique(clk - 1, t, j, clk - 1 - j * t);
  }

  lemma CountReached(cfg: Config, s: Ctrl)
    requires Reaches(cfg, s)
    ensures ValidConfig(cfg) && |Refreshes(s.log)| + |s.ch.refreshQ| == Insertions(cfg, s.clk) && s.ref.clk == s.clk
  {
    hide Core, Past, InOrder, ValidConfig, Refreshes, Insertions, Run;
    var ops :| Run(cfg, ops) == Some(s);
    CountNow(cfg, ops);
  }

  /** Between two refreshes the queue at home decides. */
  lemma WindowDecides(cfg: Config, s: Ctrl, home: Address, j: nat)
    requires Reaches(cfg, s) && AtHome(cfg, s, home, false) && ValidBank(cfg, BankOf(home)) && Window(cfg, s, j)
    ensures HomeDecides(cfg, s, home)
  {
    hide Core, Past, InOrder, Choose, ValidConfig, Shapely, Shaped, HomeQueues, TransHome, Offer, QueueIndex,
         RefreshTick, RefreshInterval, Inserts, AddressMap.ValidMapping;
    ShapedNow(cfg, s, home);
    HomeParts(cfg, s, home, false);
    var s1 := RefreshedOk(cfg, s);
    RefreshFrame(cfg, s);
    NoInsertion(cfg, s.ref, j);
    assert s1.ch == s.ch && s1.cq == s.cq;
    ChooseHome(cfg, s1, home, false);
  }

  /** As long as nothing is inserted and no refresh issued, none waits. */
  lemma StillNone(cfg: Config, s: Ctrl, s': Ctrl, j: nat)
    requires Reaches(cfg, s) && Reaches(cfg, s') && Window(cfg, s, j) && s'.clk == s.clk + 1
    requires |Refreshes(s'.log)| == |Refreshes(s.log)|
    ensures s'.ch.refreshQ == []
  {
    hide Reaches, ValidConfig, Refreshes, Insertions, RefreshInterval;
    CountReached(cfg, s);
    CountReached(cfg, s');
    InsertedSoFar(cfg, s.clk, j);
    InsertedSoFar(cfg, s'.clk, j);
  }

  lemma SameRefreshes(log: seq<Issued>, e: Issued)
    requires !IsRefresh(e.cmd.ty)
    ensures Refreshes(log + [e]) == Refreshes(log)
  {
    assert (log + [e])[..|log|] == log;
  }

  // ---------------------------------------------------------------- serving the read

  /** The read `t` of `home` is all there is to do. */
  ghost predicate Waits(cfg: Config, s: Ctrl, home: Address, t: Transaction) {
    && Single(cfg, s, home) && ValidBank(cfg, BankOf(home)) && |s.cq.queues[QueueIndex(cfg, home)]| == 1
    && s.cq.queues[QueueIndex(cfg, home)][0].hexAddr == t.addr && s.pendingRd == [t] && s.returnQ == []
  }

  function ReadLeft(ch: Channel, home: Address, due: int, clk: int, k: nat): nat {
    Stage(ch, home) * (k + 1) + Max(0, due - clk)
  }

  /** The read went out and its answer is on its way. */
  ghost predicate Served(cfg: Config, s: Ctrl, t: Transaction) {
    Reaches(cfg, s) && Empty(s) && |s.returnQ| == 1 && s.returnQ[0].addr == t.addr && s.returnQ[0].isWrite == t.isWrite
  }

  lemma OneAnswer(t: Transaction, clk: int)
    ensures Matching([t], t.addr) == [t] && Completed([t], clk) == [t.(complete := clk)]
  {
    assert [t][1..] == [];
  }

  /** A tick of the read: it is served, or there is less left of the way. */
  lemma ServeTick(cfg: Config, k: nat, s: Ctrl, home: Address, t: Transaction, due: int, j: nat)
    returns (s': Ctrl, due': int)
    requires Waits(cfg, s, home, t) && Window(cfg, s, j) && DelaysWithin(cfg, k) && ReadyBy(cfg, s.ch, home, due)
    ensures Step(cfg, s, Tick) == Some(s') && s'.clk == s.clk + 1
    ensures
      || Served(cfg, s', t)
      || (Waits(cfg, s', home, t) && s'.ch.refreshQ == [] && ReadyBy(cfg, s'.ch, home, due')
          && ReadLeft(s'.ch, home, due', s'.clk, k) < ReadLeft(s.ch, home, due, s.clk, k))
  {
    hide Reaches, AtHome, Spare, QueueIndex, Step, DelaysWithin, ReadyBy, HomeDecides, Window, Refreshes, Shaped, Offer,
         Update, Ready, ReadLeft, Empty, ValidBank;
    WindowDecides(cfg, s, home, j);
    s' := LoneTick(cfg, s, home);
    OfferKind(cfg, s, home);
    OfferIs(cfg, s, home, t);
    var r := HomeOffer(cfg, s, home, false);
    due' := due;
    if r.Issue? && IsRead(r.cmd.ty) {
      OneAnswer(t, s.clk + cfg.ReadDelay());
      EmptyNow(cfg, s', home);
    } else {
      if r.Issue? { SameRefreshes(s.log, Issued(s.clk, r.cmd)); }
      StillNone(cfg, s, s', j);
      due' := LessLeft(cfg, k, s, s', home, due, r);
    }
  }

  lemma LessLeft(cfg: Config, k: nat, s: Ctrl, s': Ctrl, home: Address, due: int, r: Pick) returns (due': int)
    requires DelaysWithin(cfg, k) && Shaped(cfg, s.ch) && ReadyBy(cfg, s.ch, home, due)
    requires 0 <= QueueIndex(cfg, home) < |s.cq.queues|
    requires s.cq.queues[QueueIndex(cfg, home)] != [] && r == HomeOffer(cfg, s, home, false) && Advanced(cfg, s, s', r)
    requires r.Issue? ==> r.cmd.ty in {Activate, Precharge} && r.cmd.addr == home
    requires r.Issue? && r.cmd.ty == Precharge ==> s.ch.banks[BankOf(home)].openRow != home.row
    ensures ReadyBy(cfg, s'.ch, home, due')
    ensures ReadLeft(s'.ch, home, due', s'.clk, k) < ReadLeft(s.ch, home, due, s.clk, k)
  {
    hide QueueIndex, DelaysWithin, ReadyBy, Offer, Update, Ready, Stage;
    due' := due;
    if r == Wait {
      ReadyFrame(cfg, s.ch, s'.ch, home, due);
      WaitsFor(cfg, s, home, due);
    } else {
      var ch := AdvancedFrom(cfg, s, s', r.cmd);
      ReadyFrame(cfg, s.ch, ch, home, due);
      MovesOn(cfg, k, ch, r.cmd, home, s.clk, due, s'.ch);
      due' := Max(due, s.clk + k);
      assert Stage(s.ch, home) * (k + 1) == Stage(s'.ch, home) * (k + 1) + k + 1;
    }
  }

  /** What is offered for the read: it, or a step towards it. */
  lemma OfferIs(cfg: Config, s: Ctrl, home: Address, t: Transaction)
    requires Waits(cfg, s, home, t) && Shaped(cfg, s.ch)
    ensures var r := HomeOffer(cfg, s, home, false);
      && r != Abort
      && (r.Issue? && IsRead(r.cmd.ty) ==> r.cmd.hexAddr == t.addr)
      && (r.Issue? && r.cmd.ty == Precharge ==> s.ch.banks[BankOf(home)].openRow != home.row)
  {
    hide Reaches, AtHome, Spare, QueueIndex;
    WaitingRead(cfg, s, home);
  }

  lemma ReadyFrame(cfg: Config, ch: Channel, ch': Channel, home: Address, due: int)
    requires ReadyBy(cfg, ch, home, due) && ch' == ch.(refreshQ := ch'.refreshQ)
    ensures ReadyBy(cfg, ch', home, due) && Stage(ch', home) == Stage(ch, home)
  {
  }

  /** The read is served within the ticks left, if no refresh is inserted until then. */
  lemma {:induction false} Serve(cfg: Config, k: nat, s: Ctrl, home: Address, t: Transaction, due: int, j: nat)
    returns (n: nat, s': Ctrl)
    requires Waits(cfg, s, home, t) && Window(cfg, s, j) && DelaysWithin(cfg, k) && ReadyBy(cfg, s.ch, home, due)
    requires s.clk + ReadLeft(s.ch, home, due, s.clk, k) + 1 <= (j + 1) * RefreshInterval(cfg)
    ensures Exec(cfg, s, Ticks(n)) == Some(s') && Served(cfg, s', t)
    decreases ReadLeft(s.ch, home, due, s.clk, k)
  {
    hide Waits, Served, DelaysWithin, ReadyBy, ReadLeft, ValidConfig, Step, RefreshInterval, Exec, Ticks;
    var due';
    s', due' := ServeTick(cfg, k, s, home, t, due, j);
    if Served(cfg, s', t) {
      n := 1;
      ExecTick(cfg, s, 0);
      ExecNone(cfg, s');
    } else {
      var s1 := s';
      n, s' := Serve(cfg, k, s1, home, t, due', j);
      ExecTick(cfg, s, n);
      n := n + 1;
    }
  }

  lemma ExecNone(cfg: Config, s: Ctrl)
    requires ValidConfig(cfg)
    ensures Exec(cfg, s, Ticks(0)) == Some(s)
  {
    hide ValidConfig;
    assert Ticks(0) == [];
  }

  /** An idle controller stays idle while the clock runs. */
  lemma {:induction false} IdleOn(cfg: Config, s: Ctrl, n: nat) returns (s': Ctrl)
    requires Reaches(cfg, s) && Empty(s)
    ensures ValidConfig(cfg) && Exec(cfg, s, Ticks(n)) == Some(s') && Reaches(cfg, s') && Empty(s')
    ensures s'.clk == s.clk + n && s'.returnQ == s.returnQ
    decreases n
  {
    hide Reaches, Empty, ValidConfig, Step, Exec, Ticks;
    ReachedConfig(cfg, s);
    if n == 0 {
      s' := s;
      ExecNone(cfg, s);
    } else {
      s' := EmptyTick(cfg, s);
      var s1 := s';
      s' := IdleOn(cfg, s1, n - 1);
      ExecTick(cfg, s, n - 1);
    }
  }

  /** At this point of every interval no refresh waits. */
  lemma NoneWaits(cfg: Config, k: nat, s: Ctrl, j: nat)
    requires Roomy(cfg, k) && Reaches(cfg, s) && s.clk == j * RefreshInterval(cfg) + ServiceTime(cfg, k)
    ensures Window(cfg, s, j)
  {
    hide ValidConfig, DelaysWithin, ServiceTime, RefreshInterval, Inv, Run, Refreshes, Insertions;
    SizedNow(cfg);
    var d, t := ServiceTime(cfg, k), RefreshInterval(cfg);
    ServicePos(cfg, k);
    IntervalPos(cfg);
    assert (j + 1) * t == j * t + t;
    var ops :| Run(cfg, ops) == Some(s);
    IssuedInTime(cfg, k, ops);
    CountReached(cfg, s);
    InsertedSoFar(cfg, s.clk, j);
    NoneThen(t, d, j, |Refreshes(s.log)|, |s.ch.refreshQ|, s.clk);
  }

  lemma NoneThen(t: int, d: int, j: nat, m: nat, waiting: nat, clk: int)
    requires m + waiting == j && clk == j * t + d && (waiting > 0 ==> waiting == 1 && clk < (m + 1) * t + d)
    ensures waiting == 0
  {
  }

  lemma {:induction false} ExecJoin(cfg: Config, s: Ctrl, n: nat, m: nat)
    requires ValidConfig(cfg) && Exec(cfg, s, Ticks(n)).Some?
    ensures Exec(cfg, s, Ticks(n + m)) == Exec(cfg, Exec(cfg, s, Ticks(n)).value, Ticks(m))
    decreases n
  {
    hide ValidConfig, Step;
    if n == 0 {
      assert Ticks(0) == [] && Ticks(m) == Ticks(0 + m);
    } else {
      assert Ticks(n)[0] == Tick && Ticks(n)[1..] == Ticks(n - 1);
      assert Ticks(n + m)[0] == Tick && Ticks(n + m)[1..] == Ticks(n - 1 + m);
      ExecJoin(cfg, Step(cfg, s, Tick).value, n - 1, m);
    }
  }

  /** The clock of an idle controller runs on to the next window. */
  lemma NextWindow(cfg: Config, k: nat, s: Ctrl) returns (n: nat, s': Ctrl, j: nat)
    requires Roomy(cfg, k) && Reaches(cfg, s) && Empty(s)
    ensures Exec(cfg, s, Ticks(n)) == Some(s') && Reaches(cfg, s') && Empty(s') && s'.returnQ == s.returnQ
    ensures s'.clk == j * RefreshInterval(cfg) + ServiceTime(cfg, k)
  {
    hide ValidConfig, DelaysWithin, ServiceTime, RefreshInterval, Reaches, Empty, Exec;
    SizedNow(cfg);
    IntervalPos(cfg);
    ServicePos(cfg, k);
    var t := RefreshInterval(cfg);
    Arith.Split(s.clk, t);
    Arith.QuotNonNeg(s.clk, t);
    j := s.clk / t + 1;
    assert j * t == s.clk / t * t + t;
    n := j * t + ServiceTime(cfg, k) - s.clk;
    s' := IdleOn(cfg, s, n);
  }

  lemma HomeOf(cfg: Config, a: nat)
    requires ValidConfig(cfg)
    ensures AddressMap.ValidMapping(cfg) && Goes(cfg, a, AddressMap.AddressMapping(cfg, a))
    ensures ValidBank(cfg, BankOf(AddressMap.AddressMapping(cfg, a)))
  {
    AddressMap.InRange(cfg, a);
  }

  /** At the start of a window the bank of `home` and the activation windows are at most one delay away. */
  lemma NearHome(cfg: Config, k: nat, s: Ctrl, home: Address)
    requires Roomy(cfg, k) && Reaches(cfg, s) && ValidBank(cfg, BankOf(home))
    ensures ReadyBy(cfg, s.ch, home, s.clk + k)
  {
    hide ValidConfig, DelaysWithin, ServiceTime, RefreshInterval, Inv, Run, TimersNear, Shaped, AccessType, Stage;
    var ops :| Run(cfg, ops) == Some(s);
    RunNear(cfg, k, ops);
    NearTimers(cfg, k, s, BankOf(home));
    NearWindows(cfg, k, s, home.rank);
  }

  lemma NearTimers(cfg: Config, k: nat, s: Ctrl, b: BankId)
    requires Shaped(cfg, s.ch) && TimersNear(cfg, s, k) && ValidBank(cfg, b)
    ensures b in s.ch.banks && forall ty: CommandType :: s.ch.banks[b].timing[ty] <= s.clk + k
  {
    assert NearBank(s.ch.banks[b], s.clk + k);
  }

  lemma NearWindows(cfg: Config, k: nat, s: Ctrl, rank: int)
    requires Inv(cfg, s) && 0 <= rank < cfg.ranks && cfg.tFAW <= k && (cfg.IsGDDR() ==> cfg.t32AW <= k)
    ensures 0 <= rank < |s.ch.fourAw| && rank < |s.ch.thirtyTwoAw| && ActivationWindowOk(cfg, s.ch, rank, s.clk + k)
  {
    hide Books, RowsMatch, TimersMatch, TraceOk, InOrder, RefreshState, AddressMap.ValidMapping, QueuesShaped,
         Activations;
    ActivationsBelow(s.log, rank, s.clk);
    var acts := Activations(s.log, rank);
    assert WindowMatch(s.ch.fourAw[rank], acts, 4, cfg.tFAW);
    if cfg.IsGDDR() { assert WindowMatch(s.ch.thirtyTwoAw[rank], acts, 32, cfg.t32AW); }
  }

  /** A read that arrives in a window is served. */
  lemma ServeArrival(cfg: Config, k: nat, s: Ctrl, a: nat, j: nat) returns (n: nat, s': Ctrl, t: Transaction)
    requires Roomy(cfg, k) && Reaches(cfg, s) && Empty(s) && s.returnQ == []
    requires s.clk == j * RefreshInterval(cfg) + ServiceTime(cfg, k)
    ensures WillAcceptTransaction(cfg, s, false) && t.addr == a && !t.isWrite
    ensures Exec(cfg, AddTransaction(cfg, s, a, false), Ticks(n)) == Some(s') && Served(cfg, s', t)
  {
    hide ValidConfig, DelaysWithin, ServiceTime, RefreshInterval, Reaches, Empty, AddressMap.ValidMapping, Goes, Exec,
         Step, AddTransaction, WillAcceptTransaction, AtHome, ReadyBy, Window, OneWaits, HomeDecides, QueueEmpty,
         QueueIndex, Spare, Served, AddressMap.AddressMapping, ValidBank;
    HomeOf(cfg, a);
    SizedNow(cfg);
    var home := AddressMap.AddressMapping(cfg, a);
    t := Transaction(a, false, s.clk, 0);
    NoneWaits(cfg, k, s, j);
    assert QueueEmpty(s.cq) by { EmptyQueues(s); }
    var s1 := Arrives(cfg, s, home, a);
    WindowFrame(cfg, s, s1, j);
    WindowDecides(cfg, s1, home, j);
    var s2 := Feeds(cfg, s1, home, t);
    ServeFed(cfg, k, s1, s2, j);
    NearHome(cfg, k, s2, home);
    LeftAtStart(cfg, k, s2, home, j);
    n, s' := Serve(cfg, k, s2, home, t, s2.clk + k, j);
    ExecTick(cfg, s1, n);
    n := n + 1;
  }

  lemma EmptyQueues(s: Ctrl)
    requires Empty(s)
    ensures QueueEmpty(s.cq)
  {
  }

  lemma WindowFrame(cfg: Config, s: Ctrl, s': Ctrl, j: nat)
    requires Window(cfg, s, j) && s'.ch == s.ch && s'.clk == s.clk
    ensures Window(cfg, s', j)
  {
  }

  /** The window lasts while the read becomes a command. */
  lemma ServeFed(cfg: Config, k: nat, s: Ctrl, s': Ctrl, j: nat)
    requires Roomy(cfg, k) && Reaches(cfg, s) && Reaches(cfg, s') && Window(cfg, s, j)
    requires s.clk == j * RefreshInterval(cfg) + ServiceTime(cfg, k) && s'.clk == s.clk + 1 && s'.log == s.log
    ensures Window(cfg, s', j)
  {
    hide ValidConfig, DelaysWithin, ServiceTime, RefreshInterval, Reaches, Refreshes;
    SizedNow(cfg);
    assert (j + 1) * RefreshInterval(cfg) == j * RefreshInterval(cfg) + RefreshInterval(cfg);
    StillNone(cfg, s, s', j);
  }

  lemma LeftAtStart(cfg: Config, k: nat, s: Ctrl, home: Address, j: nat)
    requires Roomy(cfg, k) && s.clk == j * RefreshInterval(cfg) + ServiceTime(cfg, k) + 1
    ensures s.clk + ReadLeft(s.ch, home, s.clk + k, s.clk, k) + 1 <= (j + 1) * RefreshInterval(cfg)
  {
    hide ValidConfig, DelaysWithin, ServiceTime, RefreshInterval;
    SizedNow(cfg);
    assert (j + 1) * RefreshInterval(cfg) == j * RefreshInterval(cfg) + RefreshInterval(cfg);
    Arith.MulMono(Stage(s.ch, home), 2, k + 1);
  }

  /** What a callback leaves behind. */
  lemma CalledBack(cfg: Config, s: Ctrl, t: Transaction) returns (s': Ctrl, r: Transaction)
    requires Served(cfg, s, t) && s.returnQ[0].complete <= s.clk
    ensures ReturnDoneTrans(s, s.clk) == (s', Some(r)) && r.addr == t.addr && r.isWrite == t.isWrite
    ensures Reaches(cfg, s') && Empty(s') && s'.returnQ == []
  {
    hide Inv, ValidConfig;
    assert FirstDone(s.returnQ, s.clk) == 0;
    s' := ReturnDoneTrans(s, s.clk).0;
    r := s.returnQ[0];
    ReachStep(cfg, s, Return, s');
  }

  /** A read that arrives in a window at an idle controller is called back after some ticks, and the
      controller is idle again. */
  lemma AnswerRead(cfg: Config, k: nat, s: Ctrl, a: nat, j: nat) returns (n: nat, s1: Ctrl, s': Ctrl, r: Transaction)
    requires Roomy(cfg, k) && Reaches(cfg, s) && Empty(s) && s.returnQ == []
    requires s.clk == j * RefreshInterval(cfg) + ServiceTime(cfg, k)
    ensures WillAcceptTransaction(cfg, s, false)
    ensures Exec(cfg, AddTransaction(cfg, s, a, false), Ticks(n)) == Some(s1)
    ensures ReturnDoneTrans(s1, s1.clk) == (s', Some(r)) && r.addr == a && !r.isWrite
    ensures Reaches(cfg, s') && Empty(s') && s'.returnQ == []
  {
    hide Roomy, Reaches, Empty, Exec, AddTransaction, WillAcceptTransaction, ReturnDoneTrans, RefreshInterval,
         ServiceTime;
    var t;
    n, s1, t := ServeArrival(cfg, k, s, a, j);
    assert ValidConfig(cfg) by { ReachedConfig(cfg, s); }
    var more := Max(0, s1.returnQ[0].complete - s1.clk);
    ExecJoin(cfg, AddTransaction(cfg, s, a, false), n, more);
    s1 := IdleOn(cfg, s1, more);
    n := n + more;
    s', r := CalledBack(cfg, s1, t);
  }
}
