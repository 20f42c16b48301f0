/** A refresh in front: nothing but its precharges touches its banks until it is issued, and a
    rank refresh is issued within a bound that depends only on the configuration. */
module Progress {
  import opened Common
  import opened Timing
  import opened Banks
  import opened Channels
  import opened ChannelProofs
  import opened CommandQueues
  import opened QueueProofs
  import opened Controllers
  import opened ControllerProofs
  import opened RefreshProofs
  import opened Runs
  import opened Trace
  import opened Options
  import AddressMap
  import Arith

  /** Further operations from a given state. */
  ghost function Exec(cfg: Config, s: Ctrl, ops: seq<Op>): Option<Ctrl>
    requires ValidConfig(cfg)
    decreases |ops|
  {
    if ops == [] then Some(s)
    else match Step(cfg, s, ops[0]) case None => None case Some(s1) => Exec(cfg, s1, ops[1..])
  }

  function Ticks(n: nat): seq<Op> { seq(n, _ => Tick) }

  lemma ExecTick(cfg: Config, s: Ctrl, n: nat)
    requires ValidConfig(cfg) && Step(cfg, s, Tick).Some?
    ensures Exec(cfg, s, Ticks(n + 1)) == Exec(cfg, Step(cfg, s, Tick).value, Ticks(n))
  {
    hide ValidConfig, Step;
    assert Ticks(n + 1)[0] == Tick && Ticks(n + 1)[1..] == Ticks(n);
  }

  /** `ref` is the refresh that the next tick serves. */
  ghost predicate InFront(cfg: Config, s: Ctrl, ref: Command) {
    ValidConfig(cfg) && var q := RefreshTick(cfg, s).ch.refreshQ; q != [] && q[0] == ref
  }

  /** `cmd` leaves the banks of `ref` alone, but for a precharge. */
  ghost predicate Apart(cfg: Config, ref: Command, cmd: Command) {
    forall b :: Covers(cfg, ref, b) && Covers(cfg, cmd, b) ==> cmd.ty == Precharge
  }

  /** A step of a queue that the refresh did not shut goes to a bank outside the refresh; in
      PER_RANK mode to another rank altogether. */
  lemma QueueApart(cfg: Config, s: Ctrl, q: CmdQueue, cmd: Command, i: int, p: int, m: int)
    requires ValidConfig(cfg) && cfg.Banks() != 0 && Placed(cfg, s.cq.queues) && QueuesShaped(cfg, s.cq)
    requires s.ch.refreshQ != [] && ServesQueue(cfg, s, q, cmd, i, p, m)
    ensures !Covers(cfg, s.ch.refreshQ[0], BankOf(cmd.addr)) && !IsRankCommand(cmd.ty)
    ensures s.ch.refreshQ[0].ty == Refresh || cfg.perRankQueues ==> cmd.addr.rank != s.ch.refreshQ[0].addr.rank
  {
    var ref := s.ch.refreshQ[0];
    assert Fitting(cfg, s.cq.queues[i][p], i);
    assert AllInBanks(cfg, s.cq.queues[i]);
    hide Fitting, Placed, ValidConfig, QueueIndex, RefIndices, AllInBanks;
    RefIndicesCover(cfg, ref, cmd.addr);
  }

  /** The three stages of a tick. */
  lemma TickStages(cfg: Config, s: Ctrl) returns (s1: Ctrl, s': Ctrl)
    requires Inv(cfg, s)
    ensures ValidConfig(cfg) && s1 == RefreshTick(cfg, s) && Core(cfg, s1) && Shapely(cfg, s1)
    ensures Step(cfg, s, Tick) == Some(s') && Inv(cfg, s') && s'.clk == s.clk + 1
    ensures IssueStep(cfg, s1).Some? && s'.log == IssueStep(cfg, s1).value.log && s'.ch == IssueStep(cfg, s1).value.ch
    ensures StepForm(cfg, s1, IssueStep(cfg, s1).value, Choose(cfg, s1).0, Choose(cfg, s1).1)
  {
    hide Tracks, RefreshState, QueuesShaped, InOrder, IssueStep, Choose, ScheduleTransaction, Books, RefreshTick,
         ValidConfig;
    TickInv(cfg, s);
    s' := Step(cfg, s, Tick).value;
    s1 := RefreshedOk(cfg, s);
    StepRuns(cfg, s1);
    StepLog(cfg, s1, IssueStep(cfg, s1).value);
    MappingOk(cfg);
    SchedulePast(cfg, IssueStep(cfg, s1).value);
  }

  lemma MappingOk(cfg: Config)
    requires ValidConfig(cfg)
    ensures AddressMap.ValidMapping(cfg)
  {
  }

  /** With a refresh in front, what is chosen is that refresh, a precharge for it, or a command
      to other banks. */
  lemma PickApart(cfg: Config, s: Ctrl)
    requires Core(cfg, s) && Shapely(cfg, s) && s.ch.refreshQ != []
    ensures var r := Choose(cfg, s).1; r.Issue? ==>
      && Ready(cfg, s.ch, r.cmd, s.clk)
      && (r.cmd == s.ch.refreshQ[0] ||
          (Apart(cfg, s.ch.refreshQ[0], r.cmd) && !IsRefresh(r.cmd.ty)
           && (s.ch.refreshQ[0].ty == Refresh || cfg.perRankQueues ==>
                 r.cmd.addr.rank == s.ch.refreshQ[0].addr.rank ==> r.cmd.ty == Precharge)))
  {
    hide Tracks, Choose, ValidConfig, Sides, OneEach, NoneLost, Ordered, RefreshState, Placed, QueuesShaped, Ready;
    var i, p, m := ChooseOk(cfg, s);
    var (q, r) := Choose(cfg, s);
    if r.Issue? && ServesQueue(cfg, s, q, r.cmd, i, p, m) { QueueApart(cfg, s, q, r.cmd, i, p, m); }
  }

  lemma FrontKept(cfg: Config, s: Ctrl, ref: Command)
    requires ValidConfig(cfg) && s.ch.refreshQ != [] && s.ch.refreshQ[0] == ref
    ensures InFront(cfg, s, ref)
  {
    hide ValidConfig;
  }

  lemma QueueKept(cfg: Config, s: Ctrl, s': Ctrl, q: CmdQueue, r: Pick)
    requires Shaped(cfg, s.ch) && StepForm(cfg, s, s', q, r)
    requires r.Issue? ==> !IsRefresh(r.cmd.ty)
    ensures s'.ch.refreshQ == s.ch.refreshQ
  {
    hide Ready, Consulted;
    if r.Issue? { DroppedFront(cfg, s.ch, r.cmd, s.clk); }
  }

  /** A tick with `ref` in front issues it, or keeps away from its banks and leaves it in front. */
  lemma TickApart(cfg: Config, s: Ctrl, ref: Command) returns (s1: Ctrl, s': Ctrl)
    requires Inv(cfg, s) && InFront(cfg, s, ref)
    ensures s1 == RefreshTick(cfg, s) && Core(cfg, s1) && Shapely(cfg, s1)
    ensures Step(cfg, s, Tick) == Some(s') && Inv(cfg, s') && s'.clk == s.clk + 1
    ensures match Choose(cfg, s1).1
      case Issue(cmd) =>
        s'.log == s.log + [Issued(s.clk, cmd)] && (cmd == ref || (Apart(cfg, ref, cmd) && InFront(cfg, s', ref)))
      case _ => s'.log == s.log && InFront(cfg, s', ref)
  {
    hide Device, IssueStep, Choose, Books, Past, InOrder, Update, Ready, Step, ValidConfig, Apart, StepForm;
    s1, s' := TickStages(cfg, s);
    var s2 := IssueStep(cfg, s1).value;
    var (q, r) := Choose(cfg, s1);
    PickApart(cfg, s1);
    StepLog(cfg, s1, s2);
    if !(r.Issue? && r.cmd == ref) {
      QueueKept(cfg, s1, s2, q, r);
      FrontKept(cfg, s', ref);
    }
  }

  /** In `log`, from entry `from` on, `ref` comes at entry `n`, and nothing before it touches its
      banks but for precharges. */
  ghost predicate ServedAt(cfg: Config, log: seq<Issued>, from: nat, ref: Command, n: nat) {
    from <= n < |log| && log[n].cmd == ref && forall i :: from <= i < n ==> Apart(cfg, ref, log[i].cmd)
  }

  /** One operation with `ref` in front. */
  ghost predicate KeepsApart(cfg: Config, s: Ctrl, s': Ctrl, ref: Command) {
    || (s'.log == s.log && InFront(cfg, s', ref))
    || (|s'.log| == |s.log| + 1 && s'.log[..|s.log|] == s.log
        && (s'.log[|s.log|].cmd == ref || (Apart(cfg, ref, s'.log[|s.log|].cmd) && InFront(cfg, s', ref))))
  }

  lemma OtherKeeps(cfg: Config, s: Ctrl, op: Op) returns (s': Ctrl)
    requires Inv(cfg, s) && op != Tick
    ensures ValidConfig(cfg) && Step(cfg, s, op) == Some(s') && Inv(cfg, s')
    ensures s'.log == s.log && s'.ch == s.ch && s'.ref == s.ref && s'.clk == s.clk
  {
    OtherInv(cfg, s, op);
    s' := Step(cfg, s, op).value;
    hide Core, Past, InOrder, ValidConfig, Has, FirstDone;
  }

  lemma StepApart(cfg: Config, s: Ctrl, ref: Command, op: Op) returns (s': Ctrl)
    requires Inv(cfg, s) && InFront(cfg, s, ref)
    ensures ValidConfig(cfg) && Step(cfg, s, op) == Some(s') && Inv(cfg, s') && KeepsApart(cfg, s, s', ref)
  {
    hide Inv, Apart, Step, Choose, Shapely, ValidConfig;
    if op == Tick {
      var s1;
      s1, s' := TickApart(cfg, s, ref);
    } else {
      s' := OtherKeeps(cfg, s, op);
    }
  }

  lemma StepAny(cfg: Config, s: Ctrl, op: Op) returns (s': Ctrl)
    requires Inv(cfg, s)
    ensures ValidConfig(cfg) && Step(cfg, s, op) == Some(s') && Inv(cfg, s') && s.log <= s'.log
  {
    hide Core, Past, InOrder, Step, Choose, Shapely, ValidConfig, StepForm, IssueStep;
    if op == Tick {
      var s1;
      s1, s' := TickStages(cfg, s);
      StepLog(cfg, s1, IssueStep(cfg, s1).value);
    } else {
      s' := OtherKeeps(cfg, s, op);
    }
  }

  lemma {:induction false} ExecInv(cfg: Config, s: Ctrl, ops: seq<Op>)
    requires Inv(cfg, s)
    ensures ValidConfig(cfg) && Exec(cfg, s, ops).Some? && Inv(cfg, Exec(cfg, s, ops).value)
    ensures s.log <= Exec(cfg, s, ops).value.log
    decreases |ops|
  {
    assert ValidConfig(cfg);
    hide Core, Past, InOrder, ValidConfig, Step;
    if ops != [] {
      var s' := StepAny(cfg, s, ops[0]);
      ExecInv(cfg, s', ops[1..]);
    }
  }

  /** Whatever arrives and however long it takes, until the refresh in front is issued nothing
      touches its banks but its precharges. */
  lemma {:induction false} Isolation(cfg: Config, s: Ctrl, ref: Command, ops: seq<Op>) returns (n: nat)
    requires Inv(cfg, s) && InFront(cfg, s, ref)
    ensures IsolatedIn(cfg, s, ops, ref, n)
    decreases |ops|
  {
    hide Inv, InFront, ValidConfig, Apart, Step;
    n := |s.log|;
    ExecInv(cfg, s, ops);
    if ops != [] {
      var s' := StepApart(cfg, s, ref, ops[0]);
      ExecInv(cfg, s', ops[1..]);
      var end := Exec(cfg, s', ops[1..]).value;
      assert Exec(cfg, s, ops) == Some(end);
      if |s'.log| == |s.log| + 1 && s'.log[|s.log|].cmd == ref {
        assert end.log[|s.log|] == s'.log[|s.log|];
      } else {
        n := Isolation(cfg, s', ref, ops[1..]);
        assert |s'.log| > |s.log| ==> end.log[|s.log|] == s'.log[|s.log|];
      }
    }
  }

  /** The run `ops` from `s` goes through, and until `ref` is issued at entry `n`, or else to its end,
      nothing touches the banks of `ref` but for precharges. */
  ghost predicate IsolatedIn(cfg: Config, s: Ctrl, ops: seq<Op>, ref: Command, n: nat) {
    && ValidConfig(cfg) && Exec(cfg, s, ops).Some?
    && var s' := Exec(cfg, s, ops).value;
      || ServedAt(cfg, s'.log, |s.log|, ref, n)
      || (InFront(cfg, s', ref) && forall i :: |s.log| <= i < |s'.log| ==> Apart(cfg, ref, s'.log[i].cmd))
  }

  // ---------------------------------------------------------------- a rank refresh is issued in time

  ghost function OpenIn(ch: Channel, rank: int): set<BankId> {
    set b | b in ch.banks && b.rank == rank && ch.banks[b].state == Open
  }

  /** By cycle `due` every bank of the rank is past its precharge and refresh timers. */
  ghost predicate DueBy(cfg: Config, ch: Channel, rank: int, due: int)
    requires Shaped(cfg, ch)
  {
    forall b :: ValidBank(cfg, b) && b.rank == rank ==>
        ch.banks[b].timing[Precharge] <= due && ch.banks[b].timing[Refresh] <= due
  }

  /** Ticks that may pass before the refresh goes out: a delay after each precharge still to come,
      and the time left on the timers. */
  function TicksLeft(open: nat, due: int, clk: int, k: nat): nat { open * (k + 1) + Max(0, due - clk) }

  /** Ticks left for a refresh in front of `ref`'s rank. */
  ghost function ToGo(cfg: Config, s: Ctrl, ref: Command, due: int): nat {
    TicksLeft(|OpenIn(s.ch, ref.addr.rank)|, due, s.clk, PrechargeDelay(cfg))
  }

  /** If the tick neither issues the refresh nor precharges a bank of its rank, some timer of that
      rank has not run out. */
  lemma WaitsForTimer(cfg: Config, s: Ctrl, due: int)
    requires Core(cfg, s) && Shapely(cfg, s) && s.ch.refreshQ != [] && s.ch.refreshQ[0].ty == Refresh
    requires DueBy(cfg, s.ch, s.ch.refreshQ[0].addr.rank, due)
    requires var r := Choose(cfg, s).1; r == Wait || (r.Issue? && r.cmd.addr.rank != s.ch.refreshQ[0].addr.rank)
    ensures s.clk < due
  {
    var ref := s.ch.refreshQ[0];
    hide Books, Search, RankReady, RefreshState, QueuesShaped, TraceOk, TimersMatch, WindowsMatch, GetCommandToIssue,
         RefIndices, Ready;
    assert s.cq.clk == s.clk;
    assert NoSref(cfg, s.ch);
    RankReadyStep(cfg, s.ch, ref, s.clk);
    assert RankReady(cfg, s.ch, ref, s.clk) == Wait;
    hide Choose;
    var b :| Covers(cfg, ref, b) && !CanRefresh(s.ch.banks[b], s.clk);
    assert ValidBank(cfg, b) && b.rank == ref.addr.rank && !CanPrecharge(s.ch.banks[b], s.clk);
  }

  /** What one bank of the rank may go through while it waits for its refresh. */
  ghost predicate Closer(before: BankState, after: BankState, closes: bool, limit: int) {
    && after.timing[Precharge] <= Max(before.timing[Precharge], limit)
    && after.timing[Refresh] <= Max(before.timing[Refresh], limit)
    && after.state == if closes then Closed else before.state
  }

  lemma PrechargeMoves(before: BankState, after: BankState, covered: bool, cmd: Command, table: seq<Entry>, clk: int,
                       k: nat)
    requires BankMoved(before, after, covered, cmd, table, clk) && cmd.ty == Precharge
    requires forall e :: e in table ==> e.delay <= k
    ensures Closer(before, after, covered, clk + k)
  {
  }

  lemma ElsewhereMoves(before: BankState, after: BankState, cmd: Command, table: seq<Entry>, clk: int, limit: int)
    requires BankMoved(before, after, false, cmd, table, clk)
    requires forall e :: e in table ==> IsReadWrite(e.ty)
    ensures Closer(before, after, false, limit)
  {
  }

  lemma CloserRank(cfg: Config, ch: Channel, ch': Channel, rank: int, closed: set<BankId>, due: int, limit: int)
    requires Shaped(cfg, ch) && Shaped(cfg, ch') && DueBy(cfg, ch, rank, due)
    requires forall b :: ValidBank(cfg, b) && b.rank == rank ==> Closer(ch.banks[b], ch'.banks[b], b in closed, limit)
    ensures DueBy(cfg, ch', rank, Max(due, limit))
    ensures OpenIn(ch', rank) == OpenIn(ch, rank) - closed
  {
    forall b | ValidBank(cfg, b) && b.rank == rank
      ensures ch'.banks[b].timing[Precharge] <= Max(due, limit) && ch'.banks[b].timing[Refresh] <= Max(due, limit) {
      assert Closer(ch.banks[b], ch'.banks[b], b in closed, limit);
    }
    forall b ensures b in OpenIn(ch', rank) <==> b in OpenIn(ch, rank) - closed {
      if ValidBank(cfg, b) && b.rank == rank { assert Closer(ch.banks[b], ch'.banks[b], b in closed, limit); }
    }
  }

  lemma ReadyPrecharge(cfg: Config, ch: Channel, cmd: Command, clk: int)
    requires Shaped(cfg, ch) && Ready(cfg, ch, cmd, clk) && cmd.ty == Precharge
    ensures ValidBank(cfg, BankOf(cmd.addr)) && BankOf(cmd.addr) in OpenIn(ch, cmd.addr.rank)
  {
    assert Covers(cfg, cmd, BankOf(cmd.addr));
  }

  lemma DelaysAt(cfg: Config, k: nat, cmd: Command, b: BankId)
    requires DelaysWithin(cfg, k) && KindOk(cfg, cmd)
    ensures forall e :: e in Consulted(cfg, cmd, b) ==> e.delay <= k
  {
    hide Consulted, KindOk;
  }

  /** A precharge in the rank closes one bank and pushes its timers by at most one delay. */
  lemma PrechargeProgress(cfg: Config, ch: Channel, cmd: Command, clk: int, due: int, ch': Channel)
    requires Shaped(cfg, ch) && Ready(cfg, ch, cmd, clk) && cmd.ty == Precharge
    requires DueBy(cfg, ch, cmd.addr.rank, due) && Update(cfg, ch, cmd, clk) == Some(ch') && Shaped(cfg, ch')
    ensures DueBy(cfg, ch', cmd.addr.rank, Max(due, clk + PrechargeDelay(cfg)))
    ensures BankOf(cmd.addr) in OpenIn(ch, cmd.addr.rank)
    ensures OpenIn(ch', cmd.addr.rank) == OpenIn(ch, cmd.addr.rank) - {BankOf(cmd.addr)}
  {
    hide Update, Consulted, Ready, Closer, DueBy, OpenIn, PrechargeDelay;
    var k := PrechargeDelay(cfg);
    ReadyPrecharge(cfg, ch, cmd, clk);
    forall b | ValidBank(cfg, b) && b.rank == cmd.addr.rank
        ensures Closer(ch.banks[b], ch'.banks[b], b in {BankOf(cmd.addr)}, clk + k) {
      UpdateBank(cfg, ch, cmd, clk, b);
      PrechargeTable(cfg, cmd, b);
      PrechargeMoves(ch.banks[b], ch'.banks[b], Covers(cfg, cmd, b), cmd, Consulted(cfg, cmd, b), clk, k);
    }
    CloserRank(cfg, ch, ch', cmd.addr.rank, {BankOf(cmd.addr)}, due, clk + k);
  }

  /** Commands to other ranks neither open banks here nor move these timers. */
  lemma ElsewhereProgress(cfg: Config, ch: Channel, cmd: Command, clk: int, due: int, rank: int, ch': Channel)
    requires Shaped(cfg, ch) && Ready(cfg, ch, cmd, clk) && cmd.addr.rank != rank && DueBy(cfg, ch, rank, due)
    requires Update(cfg, ch, cmd, clk) == Some(ch') && Shaped(cfg, ch')
    ensures DueBy(cfg, ch', rank, due) && OpenIn(ch', rank) == OpenIn(ch, rank)
  {
    hide Update, Consulted, Ready, Closer, DueBy, OpenIn;
    forall b | ValidBank(cfg, b) && b.rank == rank ensures Closer(ch.banks[b], ch'.banks[b], b in {}, due) {
      UpdateBank(cfg, ch, cmd, clk, b);
      forall e | e in Consulted(cfg, cmd, b) ensures IsReadWrite(e.ty) { OtherRankTimers(cfg, cmd, b, e); }
      ElsewhereMoves(ch.banks[b], ch'.banks[b], cmd, Consulted(cfg, cmd, b), clk, due);
    }
    CloserRank(cfg, ch, ch', rank, {}, due, due);
  }

  lemma QueueKind(cfg: Config, s: Ctrl, q: CmdQueue, cmd: Command, i: int, p: int, m: int)
    requires AddressMap.ValidMapping(cfg) && Placed(cfg, s.cq.queues) && cfg.Banks() != 0
    requires ServesQueue(cfg, s, q, cmd, i, p, m)
    ensures KindOk(cfg, cmd)
  {
    assert Fitting(cfg, s.cq.queues[i][p], i);
    hide RefreshState, Placed;
  }

  lemma ChosenKind(cfg: Config, s: Ctrl)
    requires Core(cfg, s) && Shapely(cfg, s)
    ensures var r := Choose(cfg, s).1; r.Issue? ==> KindOk(cfg, r.cmd)
  {
    hide Choose, Tracks, QueuesShaped, Ready, OneEach, NoneLost, Ordered, Sides, SingleWrites, Placed, StepOf,
         AddressMap.ValidMapping;
    var i, p, m := ChooseOk(cfg, s);
    var (q, r) := Choose(cfg, s);
    if r.Issue? && ServesQueue(cfg, s, q, r.cmd, i, p, m) { QueueKind(cfg, s, q, r.cmd, i, p, m); }
  }

  /** The stages of a tick seen by the banks. */
  lemma TickBanks(cfg: Config, s: Ctrl) returns (s1: Ctrl, s': Ctrl)
    requires Inv(cfg, s)
    ensures ValidConfig(cfg) && s1 == RefreshTick(cfg, s) && Core(cfg, s1) && Shapely(cfg, s1) && Shaped(cfg, s1.ch)
    ensures Step(cfg, s, Tick) == Some(s') && Inv(cfg, s') && s'.clk == s.clk + 1 && s1.clk == s.clk
    ensures Shaped(cfg, s'.ch)
    ensures s1.ch.banks == s.ch.banks && Shaped(cfg, s.ch)
    ensures match Choose(cfg, s1).1
      case Abort => false
      case Wait => s'.ch == s1.ch && s'.log == s.log
      case Issue(cmd) => Ready(cfg, s1.ch, cmd, s1.clk) && Update(cfg, s1.ch, cmd, s1.clk) == Some(s'.ch)
                         && s'.log == s.log + [Issued(s.clk, cmd)] && KindOk(cfg, cmd)
  {
    hide Books, IssueStep, Choose, Past, InOrder, Update, Ready, Step, ValidConfig, TraceOk, RowsMatch, TimersMatch,
         WindowsMatch, KindOk;
    s1, s' := TickStages(cfg, s);
    ChosenKind(cfg, s1);
    CoreShapely(cfg, s);
    CoreShapely(cfg, s');
    StepLog(cfg, s1, IssueStep(cfg, s1).value);
  }

  /** Each tick either issues the refresh or leaves fewer ticks to go. */
  lemma TickCloser(cfg: Config, s: Ctrl, ref: Command, due: int) returns (s': Ctrl, due': int)
    requires Inv(cfg, s) && InFront(cfg, s, ref) && ref.ty == Refresh
    requires Shaped(cfg, s.ch) && DueBy(cfg, s.ch, ref.addr.rank, due)
    ensures Step(cfg, s, Tick) == Some(s') && Inv(cfg, s') && Shaped(cfg, s'.ch)
    ensures
      || s'.log == s.log + [Issued(s.clk, ref)]
      || (InFront(cfg, s', ref) && DueBy(cfg, s'.ch, ref.addr.rank, due')
          && ToGo(cfg, s', ref, due') < ToGo(cfg, s, ref, due))
  {
    hide Core, Choose, Past, InOrder, Update, Ready, Step, ValidConfig, Apart, Shaped, PrechargeDelay, KindOk;
    var rank, k := ref.addr.rank, PrechargeDelay(cfg);
    var s1;
    s1, s' := TickApart(cfg, s, ref);
    s1, s' := TickBanks(cfg, s);
    assert DueBy(cfg, s1.ch, rank, due) && OpenIn(s1.ch, rank) == OpenIn(s.ch, rank);
    hide DueBy, OpenIn, InFront;
    var r := Choose(cfg, s1).1;
    due' := due;
    FrontIs(cfg, s, s1, ref);
    PickApart(cfg, s1);
    if r.Issue? && r.cmd != ref && r.cmd.addr.rank == rank {
      PrechargeProgress(cfg, s1.ch, r.cmd, s.clk, due, s'.ch);
      due' := Max(due, s.clk + k);
      OneLess(|OpenIn(s'.ch, rank)|, |OpenIn(s.ch, rank)|, k);
    } else if !(r.Issue? && r.cmd == ref) {
      WaitsForTimer(cfg, s1, due);
      if r.Issue? { ElsewhereProgress(cfg, s1.ch, r.cmd, s.clk, due, rank, s'.ch); }
    }
  }

  lemma FrontIs(cfg: Config, s: Ctrl, s1: Ctrl, ref: Command)
    requires ValidConfig(cfg) && InFront(cfg, s, ref) && s1 == RefreshTick(cfg, s)
    ensures s1.ch.refreshQ != [] && s1.ch.refreshQ[0] == ref
  {
  }

  lemma OneLess(a: nat, b: nat, k: nat)
    requires a + 1 == b
    ensures b * (k + 1) == a * (k + 1) + k + 1
  {
  }

  function TickCount(ops: seq<Op>): nat {
    if ops == [] then 0 else (if ops[0] == Tick then 1 else 0) + TickCount(ops[1..])
  }

  /** `ref` was issued at entry `n` or later than entry `from`. */
  ghost predicate IssuedSince(log: seq<Issued>, from: nat, ref: Command) {
    exists n :: from <= n < |log| && log[n].cmd == ref
  }

  /** The run `ops` from `s` goes through and issues `ref`. */
  ghost predicate ServedIn(cfg: Config, s: Ctrl, ops: seq<Op>, ref: Command) {
    ValidConfig(cfg) && Exec(cfg, s, ops).Some? && IssuedSince(Exec(cfg, s, ops).value.log, |s.log|, ref)
  }

  /** Once more ticks pass than are left to go, the refresh has been issued. */
  lemma {:induction false} ServedWithin(cfg: Config, s: Ctrl, ref: Command, due: int, ops: seq<Op>)
    requires Inv(cfg, s) && InFront(cfg, s, ref) && ref.ty == Refresh
    requires Shaped(cfg, s.ch) && DueBy(cfg, s.ch, ref.addr.rank, due) && TickCount(ops) > ToGo(cfg, s, ref, due)
    ensures ServedIn(cfg, s, ops, ref)
    decreases |ops|
  {
    hide Inv, InFront, Shaped, DueBy, Step, ToGo, ValidConfig;
    ExecInv(cfg, s, ops);
    var end := Exec(cfg, s, ops).value;
    if ops[0] == Tick {
      var s', due' := TickCloser(cfg, s, ref, due);
      ExecInv(cfg, s', ops[1..]);
      if s'.log == s.log + [Issued(s.clk, ref)] {
        assert end.log[|s.log|].cmd == ref;
      } else {
        ServedWithin(cfg, s', ref, due', ops[1..]);
        assert s.log <= s'.log by { var s'' := StepAny(cfg, s, Tick); }
        Later(end.log, |s.log|, |s'.log|, ref);
      }
    } else {
      var s' := OtherKeeps(cfg, s, ops[0]);
      StillFront(cfg, s, s', ref);
      StillToGo(cfg, s, s', ref, due);
      ServedWithin(cfg, s', ref, due, ops[1..]);
    }
  }

  lemma StillToGo(cfg: Config, s: Ctrl, s': Ctrl, ref: Command, due: int)
    requires s'.ch == s.ch && s'.clk == s.clk
    ensures ToGo(cfg, s', ref, due) == ToGo(cfg, s, ref, due)
  {
  }

  lemma Later(log: seq<Issued>, a: nat, b: nat, ref: Command)
    requires a <= b && IssuedSince(log, b, ref)
    ensures IssuedSince(log, a, ref)
  {
  }

  lemma StillFront(cfg: Config, s: Ctrl, s': Ctrl, ref: Command)
    requires ValidConfig(cfg) && InFront(cfg, s, ref) && s'.ch == s.ch && s'.ref == s.ref
    ensures InFront(cfg, s', ref)
  {
  }

  /** No timer is ever further ahead than the longest delay. */
  ghost predicate TimersNear(cfg: Config, s: Ctrl, k: nat)
    requires Shaped(cfg, s.ch)
  {
    forall b :: ValidBank(cfg, b) ==> NearBank(s.ch.banks[b], s.clk + k)
  }

  predicate NearBank(b: BankState, due: int) { forall ty: CommandType :: b.timing[ty] <= due }

  lemma MovesNear(before: BankState, after: BankState, covered: bool, cmd: Command, table: seq<Entry>, clk: int, k: nat)
    requires BankMoved(before, after, covered, cmd, table, clk) && forall e :: e in table ==> e.delay <= k
    requires NearBank(before, clk + k)
    ensures NearBank(after, clk + k + 1)
  {
  }

  lemma LaterNear(b: BankState, due: int)
    requires NearBank(b, due)
    ensures NearBank(b, due + 1)
  {
  }

  lemma TickNear(cfg: Config, k: nat, s: Ctrl) returns (s': Ctrl)
    requires Inv(cfg, s) && DelaysWithin(cfg, k) && Shaped(cfg, s.ch) && TimersNear(cfg, s, k)
    ensures Step(cfg, s, Tick) == Some(s') && Inv(cfg, s') && Shaped(cfg, s'.ch) && TimersNear(cfg, s', k)
  {
    hide Core, Choose, Past, InOrder, Update, Ready, Step, ValidConfig, DelaysWithin, Consulted, BankMoved, NearBank,
         KindOk;
    var s1;
    s1, s' := TickBanks(cfg, s);
    var r := Choose(cfg, s1).1;
    forall b | ValidBank(cfg, b) ensures NearBank(s'.ch.banks[b], s'.clk + k) {
      if r.Issue? {
        UpdateBank(cfg, s1.ch, r.cmd, s.clk, b);
        DelaysAt(cfg, k, r.cmd, b);
        MovesNear(s1.ch.banks[b], s'.ch.banks[b], Covers(cfg, r.cmd, b), r.cmd, Consulted(cfg, r.cmd, b), s.clk, k);
      } else {
        LaterNear(s.ch.banks[b], s.clk + k);
      }
    }
  }

  lemma {:induction false} RunNear(cfg: Config, k: nat, ops: seq<Op>)
    requires ValidConfig(cfg) && DelaysWithin(cfg, k)
    ensures Run(cfg, ops).Some? && Inv(cfg, Run(cfg, ops).value)
    ensures Shaped(cfg, Run(cfg, ops).value.ch) && TimersNear(cfg, Run(cfg, ops).value, k)
  {
    RunInv(cfg, ops);
    hide DelaysWithin, ValidConfig;
    if ops == [] {
      hide Inv;
      NearAtStart(cfg, k);
    } else {
      RunNear(cfg, k, ops[..|ops| - 1]);
      var s := Run(cfg, ops[..|ops| - 1]).value;
      hide Inv, Shaped, TimersNear, Step;
      if ops[|ops| - 1] == Tick {
        var s' := TickNear(cfg, k, s);
      } else {
        var s' := OtherKeeps(cfg, s, ops[|ops| - 1]);
        NearKept(cfg, s, s', k);
      }
    }
  }

  lemma NearAtStart(cfg: Config, k: nat)
    requires ValidConfig(cfg)
    ensures Shaped(cfg, Initial(cfg).ch) && TimersNear(cfg, Initial(cfg), k)
  {
    InitialTracks(cfg);
  }

  lemma NearKept(cfg: Config, s: Ctrl, s': Ctrl, k: nat)
    requires Shaped(cfg, s.ch) && TimersNear(cfg, s, k) && s'.ch == s.ch && s'.clk == s.clk
    ensures Shaped(cfg, s'.ch) && TimersNear(cfg, s', k)
  {
  }

  lemma OpenBound(cfg: Config, ch: Channel, rank: int)
    requires Sized(cfg) && Shaped(cfg, ch) && 0 <= rank < cfg.ranks
    ensures |OpenIn(ch, rank)| <= cfg.Banks()
  {
    var ids := RankBanks(cfg, rank);
    var all := set b | b in ids;
    SetOfIds(ids);
    assert OpenIn(ch, rank) <= all;
    assert all == OpenIn(ch, rank) + (all - OpenIn(ch, rank));
  }

  lemma {:induction false} SetOfIds(ids: seq<BankId>)
    ensures |set b | b in ids| <= |ids|
  {
    if ids != [] {
      SetOfIds(ids[1..]);
      assert (set b | b in ids) == {ids[0]} + set b | b in ids[1..];
    }
  }

  lemma FrontAddressed(cfg: Config, s: Ctrl, ref: Command)
    requires Inv(cfg, s) && InFront(cfg, s, ref)
    ensures Addressed(cfg, ref)
  {
    hide Books, Tracks, InOrder, ValidConfig, Past, RefIndices;
    var s1 := RefreshedOk(cfg, s);
    assert s1.ch.refreshQ[0] == ref;
  }

  /** A bound on the ticks that a refresh spends in front: a precharge and its delay for each bank of
      the rank, and the longest delay. */
  function ServiceTime(cfg: Config, k: nat): int { cfg.Banks() * (PrechargeDelay(cfg) + 1) + k + 1 }

  lemma FewToGo(cfg: Config, k: nat, s: Ctrl, ref: Command)
    requires ValidConfig(cfg) && Shaped(cfg, s.ch) && 0 <= ref.addr.rank < cfg.ranks
    ensures ToGo(cfg, s, ref, s.clk + k) < ServiceTime(cfg, k)
  {
    SizedNow(cfg);
    hide OpenIn, ValidConfig, Shaped, PrechargeDelay;
    OpenBound(cfg, s.ch, ref.addr.rank);
    Arith.MulMono(|OpenIn(s.ch, ref.addr.rank)|, cfg.Banks(), PrechargeDelay(cfg) + 1);
  }

  lemma SizedNow(cfg: Config)
    requires ValidConfig(cfg)
    ensures Sized(cfg)
  {
  }

  lemma NearDue(cfg: Config, s: Ctrl, k: nat, rank: int)
    requires Shaped(cfg, s.ch) && TimersNear(cfg, s, k)
    ensures DueBy(cfg, s.ch, rank, s.clk + k)
  {
    forall b | ValidBank(cfg, b)
        ensures s.ch.banks[b].timing[Precharge] <= s.clk + k && s.ch.banks[b].timing[Refresh] <= s.clk + k {
      assert NearBank(s.ch.banks[b], s.clk + k);
    }
  }

  /** A rank refresh that reaches the front after any run is issued within the service time, whatever
      else arrives. */
  lemma RefreshInTime(cfg: Config, k: nat, ops: seq<Op>, more: seq<Op>, ref: Command)
    requires ValidConfig(cfg) && DelaysWithin(cfg, k) && ref.ty == Refresh
    requires Run(cfg, ops).Some? && InFront(cfg, Run(cfg, ops).value, ref)
    requires TickCount(more) >= ServiceTime(cfg, k)
    ensures ServedIn(cfg, Run(cfg, ops).value, more, ref)
  {
    hide Run, Inv, Shaped, DelaysWithin, InFront, ValidConfig, Exec, ToGo, ServiceTime, DueBy, TimersNear;
    var s := Run(cfg, ops).value;
    RunNear(cfg, k, ops);
    FrontAddressed(cfg, s, ref);
    FewToGo(cfg, k, s, ref);
    NearDue(cfg, s, k, ref.addr.rank);
    ServedWithin(cfg, s, ref, s.clk + k, more);
  }
}
