/** A bank refresh in front is issued within a bound once activations of its rank pause; each
    activation of the rank pushes it back by tRC. */
module BankProgress {
  import opened Common
  import opened Timing
  import opened Banks
  import opened Channels
  import opened ChannelProofs
  import opened CommandQueues
  import opened QueueProofs
  import opened Controllers
  import opened ControllerProofs
  import opened RefreshProofs
  import opened Runs
  import opened Progress
  import opened Trace
  import opened Options
  import Arith
  import Jedec

  /** In every sound trace a bank refresh comes at least tRC after any activation of another bank
      of its rank, and tREFI after any refresh of another bank of its rank. */
  lemma HeldBack(cfg: Config, log: seq<Issued>, i: int, j: int)
    requires TraceOk(cfg, log) && 0 <= i < j < |log| && log[j].cmd.ty == RefreshBank
    requires log[i].cmd.addr.rank == log[j].cmd.addr.rank && BankOf(log[i].cmd.addr) != BankOf(log[j].cmd.addr)
    ensures log[i].cmd.ty == Activate ==> log[j].clk >= log[i].clk + cfg.TRC()
    ensures log[i].cmd.ty == RefreshBank ==> log[j].clk >= log[i].clk + cfg.tREFI
  {
    var b := BankOf(log[j].cmd.addr);
    assert LegalNext(cfg, log[..j], log[j].cmd);
    if log[i].cmd.ty == Activate {
      assert Entry(RefreshBank, cfg.TRC()) in Consulted(cfg, log[i].cmd, b);
      Jedec.Apply(cfg, log, i, j, b, Entry(RefreshBank, cfg.TRC()));
    } else if log[i].cmd.ty == RefreshBank {
      assert Entry(RefreshBank, cfg.tREFI) in Consulted(cfg, log[i].cmd, b);
      Jedec.Apply(cfg, log, i, j, b, Entry(RefreshBank, cfg.tREFI));
    }
  }

  /** By cycle `due` bank `b` is past its precharge and bank-refresh timers. */
  ghost predicate BankDue(ch: Channel, b: BankId, due: int) {
    b in ch.banks && ch.banks[b].timing[Precharge] <= due && ch.banks[b].timing[RefreshBank] <= due
  }

  /** If the tick neither issues the refresh nor precharges its bank, a timer of that bank has not run out. */
  lemma WaitsForBank(cfg: Config, s: Ctrl, due: int)
    requires Core(cfg, s) && Shapely(cfg, s) && s.ch.refreshQ != [] && s.ch.refreshQ[0].ty == RefreshBank
    requires BankDue(s.ch, BankOf(s.ch.refreshQ[0].addr), due)
    requires var r := Choose(cfg, s).1;
      r == Wait || (r.Issue? && r.cmd != s.ch.refreshQ[0] && BankOf(r.cmd.addr) != BankOf(s.ch.refreshQ[0].addr))
    ensures s.clk < due
  {
    var ref := s.ch.refreshQ[0];
    hide Books, Search, RefreshState, QueuesShaped, TraceOk, TimersMatch, WindowsMatch, GetCommandToIssue, RefIndices,
         Ready;
    assert s.cq.clk == s.clk;
    assert NoSref(cfg, s.ch);
    ReadyStep(cfg, s.ch, ref, s.clk);
    assert ReadyCommand(cfg, s.ch, ref, s.clk) == Wait;
  }

  /** Commands that may go out beside the refresh of bank `b`, other than activations of its rank,
      leave its two timers alone, but for precharges, which push them by at most one delay. */
  lemma TableBeside(cfg: Config, cmd: Command, b: BankId)
    requires cmd.addr.rank != b.rank || (IsReadWrite(cmd.ty) && b != BankOf(cmd.addr))
    ensures forall e :: e in Consulted(cfg, cmd, b) ==> IsReadWrite(e.ty)
  {
    if cmd.addr.rank != b.rank {
      forall e | e in Consulted(cfg, cmd, b) ensures IsReadWrite(e.ty) { OtherRankTimers(cfg, cmd, b, e); }
    } else {
      ColumnsOnly(cfg, cmd, b);
    }
  }

  lemma ColumnsOnly(cfg: Config, cmd: Command, b: BankId)
    requires IsReadWrite(cmd.ty) && b != BankOf(cmd.addr)
    ensures forall e :: e in Consulted(cfg, cmd, b) ==> IsReadWrite(e.ty)
  {
    ColumnEntries();
    hide Columns;
  }

  lemma ColumnEntries()
    ensures forall rd, wr, e :: e in Columns(rd, wr) ==> IsReadWrite(e.ty)
  {
  }

  lemma DueBeside(cfg: Config, ch: Channel, cmd: Command, clk: int, b: BankId, due: int, ch': Channel)
    requires Shaped(cfg, ch) && Ready(cfg, ch, cmd, clk) && Update(cfg, ch, cmd, clk) == Some(ch') && ValidBank(cfg, b)
    requires BankDue(ch, b, due) && (cmd.addr.rank != b.rank || (IsReadWrite(cmd.ty) && b != BankOf(cmd.addr)))
    ensures BankDue(ch', b, due)
  {
    hide Update, Ready, Consulted, BankMoved, Covers, Shaped;
    UpdateBank(cfg, ch, cmd, clk, b);
    TableBeside(cfg, cmd, b);
    var before, after := ch.banks[b], ch'.banks[b];
    TimerStays(before, after, Covers(cfg, cmd, b), cmd, Consulted(cfg, cmd, b), clk, Precharge);
    TimerStays(before, after, Covers(cfg, cmd, b), cmd, Consulted(cfg, cmd, b), clk, RefreshBank);
  }

  lemma TimerLimit(before: BankState, after: BankState, covered: bool, cmd: Command, table: seq<Entry>, clk: int,
                   ty: CommandType, k: int)
    requires BankMoved(before, after, covered, cmd, table, clk) && forall e :: e in table && e.ty == ty ==> e.delay <= k
    ensures after.timing[ty] <= Max(before.timing[ty], clk + k)
  {
    if after.timing[ty] != before.timing[ty] { TimerFrom(before, after, covered, cmd, table, clk, ty); }
    hide BankMoved;
  }

  lemma DueAfterPrecharge(cfg: Config, ch: Channel, cmd: Command, clk: int, b: BankId, due: int, ch': Channel)
    requires Shaped(cfg, ch) && Ready(cfg, ch, cmd, clk) && Update(cfg, ch, cmd, clk) == Some(ch') && ValidBank(cfg, b)
    requires BankDue(ch, b, due) && cmd.ty == Precharge
    ensures BankDue(ch', b, Max(due, clk + PrechargeDelay(cfg)))
  {
    hide Update, Ready, Consulted, BankMoved, Covers, PrechargeDelay;
    UpdateBank(cfg, ch, cmd, clk, b);
    PrechargeTable(cfg, cmd, b);
    var before, after, k := ch.banks[b], ch'.banks[b], PrechargeDelay(cfg);
    TimerLimit(before, after, Covers(cfg, cmd, b), cmd, Consulted(cfg, cmd, b), clk, Precharge, k);
    TimerLimit(before, after, Covers(cfg, cmd, b), cmd, Consulted(cfg, cmd, b), clk, RefreshBank, k);
  }

  /** Nothing but an activation opens a bank; a precharge closes one. */
  lemma OpenShrinks(cfg: Config, ch: Channel, cmd: Command, clk: int, rank: int, ch': Channel)
    requires Shaped(cfg, ch) && Ready(cfg, ch, cmd, clk) && Update(cfg, ch, cmd, clk) == Some(ch')
    requires !(cmd.ty == Activate && cmd.addr.rank == rank)
    ensures OpenIn(ch', rank) <= OpenIn(ch, rank)
    ensures cmd.ty == Precharge && cmd.addr.rank == rank ==>
      BankOf(cmd.addr) in OpenIn(ch, rank) && BankOf(cmd.addr) !in OpenIn(ch', rank)
  {
    UpdateShaped(cfg, ch, cmd, clk);
    if cmd.ty == Precharge { ReadyPrecharge(cfg, ch, cmd, clk); }
    assert !IsRankCommand(cmd.ty) || cmd.ty != Activate;
    forall b | ValidBank(cfg, b) && b.rank == rank
      ensures ch'.banks[b].state == Open ==>
          ch.banks[b].state == Open && !(cmd.ty == Precharge && b == BankOf(cmd.addr))
    {
      hide Update, Ready, Consulted, OpenIn;
      UpdateBank(cfg, ch, cmd, clk, b);
      StateBeside(ch.banks[b], ch'.banks[b], Covers(cfg, cmd, b), cmd, Consulted(cfg, cmd, b), clk);
    }
    hide Update, Ready, Consulted;
  }

  lemma StateBeside(before: BankState, after: BankState, covered: bool, cmd: Command, table: seq<Entry>, clk: int)
    requires BankMoved(before, after, covered, cmd, table, clk)
    ensures covered && cmd.ty == Precharge ==> after.state == Closed
    ensures !(covered && cmd.ty == Activate) && after.state == Open ==> before.state == Open
  {
  }

  ghost predicate ActivatedSince(log: seq<Issued>, from: nat, rank: int) {
    exists n :: from <= n < |log| && log[n].cmd.ty == Activate && log[n].cmd.addr.rank == rank
  }

  /** What a tick with a bank refresh in front comes to: the refresh, fewer ticks to go or, with a
      queue per bank, an activation of its rank. */
  ghost predicate BankCloser(cfg: Config, s: Ctrl, s': Ctrl, ref: Command, due: int, due': int) {
    || s'.log == s.log + [Issued(s.clk, ref)]
    || (InFront(cfg, s', ref) && BankDue(s'.ch, BankOf(ref.addr), due')
        && ToGo(cfg, s', ref, due') < ToGo(cfg, s, ref, due))
    || (!cfg.perRankQueues && s.log < s'.log
        && s'.log[|s.log|].cmd.ty == Activate && s'.log[|s.log|].cmd.addr.rank == ref.addr.rank)
  }

  lemma FewerOpen(a: set<BankId>, b: set<BankId>, k: nat)
    requires a <= b
    ensures |a| * (k + 1) <= |b| * (k + 1)
    ensures a != b ==> |a| * (k + 1) + k + 1 <= |b| * (k + 1)
  {
    assert b == a + (b - a);
    Arith.MulMono(|a|, |b|, k + 1);
    if a != b {
      Arith.MulMono(|a| + 1, |b|, k + 1);
      assert (|a| + 1) * (k + 1) == |a| * (k + 1) + k + 1;
    }
  }

  lemma DueFrame(ch: Channel, ch': Channel, b: BankId, due: int, rank: int)
    requires ch'.banks == ch.banks && BankDue(ch, b, due)
    ensures BankDue(ch', b, due) && OpenIn(ch', rank) == OpenIn(ch, rank)
  {
  }

  /** Time passes while a timer runs. */
  lemma FewerTicks(open': nat, open: nat, due: int, clk: int, k: nat)
    requires open' * (k + 1) <= open * (k + 1) && clk < due
    ensures TicksLeft(open', due, clk + 1, k) < TicksLeft(open, due, clk, k)
  {
  }

  lemma FewerBanks(open': nat, open: nat, due: int, clk: int, k: nat)
    requires open' * (k + 1) + k + 1 <= open * (k + 1)
    ensures TicksLeft(open', Max(due, clk + k), clk + 1, k) < TicksLeft(open, due, clk, k)
  {
  }

  lemma ElsewhereOf(cfg: Config, ch: Channel, ref: Command, cmd: Command, clk: int)
    requires Shaped(cfg, ch) && Ready(cfg, ch, cmd, clk) && Apart(cfg, ref, cmd) && !IsRefresh(cmd.ty)
    requires ref.ty == RefreshBank && Addressed(cfg, ref) && cmd.ty != Precharge
    requires !(cmd.ty == Activate && cmd.addr.rank == ref.addr.rank)
    ensures BankOf(cmd.addr) != BankOf(ref.addr) && (cmd.addr.rank != ref.addr.rank || IsReadWrite(cmd.ty))
  {
    assert Covers(cfg, ref, BankOf(ref.addr));
  }

  /** A command that goes out beside the refresh, and is no activation of its rank, leaves fewer ticks to go. */
  lemma BesideTick(cfg: Config, s: Ctrl, ch': Channel, ref: Command, cmd: Command, due: int) returns (due': int)
    requires Core(cfg, s) && Shapely(cfg, s) && Shaped(cfg, s.ch)
    requires s.ch.refreshQ != [] && s.ch.refreshQ[0] == ref && ref.ty == RefreshBank && Addressed(cfg, ref)
    requires Choose(cfg, s).1 == Issue(cmd) && Ready(cfg, s.ch, cmd, s.clk)
    requires Update(cfg, s.ch, cmd, s.clk) == Some(ch')
    requires cmd != ref && Apart(cfg, ref, cmd) && !IsRefresh(cmd.ty)
    requires !(cmd.ty == Activate && cmd.addr.rank == ref.addr.rank)
    requires BankDue(s.ch, BankOf(ref.addr), due)
    ensures BankDue(ch', BankOf(ref.addr), due')
    ensures TicksLeft(|OpenIn(ch', ref.addr.rank)|, due', s.clk + 1, PrechargeDelay(cfg)) < ToGo(cfg, s, ref, due)
  {
    hide Core, Choose, Update, Ready, Shapely, PrechargeDelay, TicksLeft, BankDue, OpenIn, Apart, Shaped;
    var b, rank, k := BankOf(ref.addr), ref.addr.rank, PrechargeDelay(cfg);
    var open', open := OpenIn(ch', rank), OpenIn(s.ch, rank);
    OpenShrinks(cfg, s.ch, cmd, s.clk, rank, ch');
    FewerOpen(open', open, k);
    if cmd.ty == Precharge && cmd.addr.rank == rank {
      due' := Max(due, s.clk + k);
      DueAfterPrecharge(cfg, s.ch, cmd, s.clk, b, due, ch');
      FewerBanks(|open'|, |open|, due, s.clk, k);
    } else {
      due' := due;
      if cmd.ty != Precharge { ElsewhereOf(cfg, s.ch, ref, cmd, s.clk); }
      DueBeside(cfg, s.ch, cmd, s.clk, b, due, ch');
      WaitsForBank(cfg, s, due);
      FewerTicks(|open'|, |open|, due, s.clk, k);
    }
  }

  lemma BankTick(cfg: Config, s: Ctrl, ref: Command, due: int) returns (s': Ctrl, due': int)
    requires Inv(cfg, s) && InFront(cfg, s, ref) && ref.ty == RefreshBank
    requires BankDue(s.ch, BankOf(ref.addr), due)
    ensures Step(cfg, s, Tick) == Some(s') && Inv(cfg, s') && BankCloser(cfg, s, s', ref, due, due')
  {
    hide Core, Choose, Past, InOrder, Update, Ready, Step, ValidConfig, Shaped, Shapely, PrechargeDelay, TicksLeft,
         BankDue, OpenIn, Apart, KindOk;
    var b, rank := BankOf(ref.addr), ref.addr.rank;
    var s1;
    s1, s' := TickApart(cfg, s, ref);
    s1, s' := TickBanks(cfg, s);
    FrontIs(cfg, s, s1, ref);
    hide InFront;
    DueFrame(s.ch, s1.ch, b, due, rank);
    PickApart(cfg, s1);
    due' := due;
    var r := Choose(cfg, s1).1;
    if r == Wait {
      WaitsForBank(cfg, s1, due);
      FewerTicks(|OpenIn(s.ch, rank)|, |OpenIn(s.ch, rank)|, due, s.clk, PrechargeDelay(cfg));
    } else if r.cmd != ref && !(r.cmd.ty == Activate && r.cmd.addr.rank == rank) {
      FrontAddressed(cfg, s, ref);
      due' := BesideTick(cfg, s1, s'.ch, ref, r.cmd, due);
    }
  }

  /** The run `ops` from `s` goes through and issues `ref` or, with a queue per bank, activates a bank
      of its rank. */
  ghost predicate ServedOrActivated(cfg: Config, s: Ctrl, ops: seq<Op>, ref: Command) {
    && ValidConfig(cfg) && Exec(cfg, s, ops).Some?
    && var log := Exec(cfg, s, ops).value.log;
      || IssuedSince(log, |s.log|, ref)
      || (!cfg.perRankQueues && ActivatedSince(log, |s.log|, ref.addr.rank))
  }

  lemma {:induction false} BankServedWithin(cfg: Config, s: Ctrl, ref: Command, due: int, ops: seq<Op>)
    requires Inv(cfg, s) && InFront(cfg, s, ref) && ref.ty == RefreshBank
    requires BankDue(s.ch, BankOf(ref.addr), due) && TickCount(ops) > ToGo(cfg, s, ref, due)
    ensures ServedOrActivated(cfg, s, ops, ref)
    decreases |ops|
  {
    hide Inv, InFront, BankDue, Step, ToGo, ValidConfig;
    ExecInv(cfg, s, ops);
    var end := Exec(cfg, s, ops).value;
    if ops[0] == Tick {
      var s', due' := BankTick(cfg, s, ref, due);
      ExecInv(cfg, s', ops[1..]);
      var s'' := StepAny(cfg, s, Tick);
      var closer := ToGo(cfg, s', ref, due') < ToGo(cfg, s, ref, due);
      if InFront(cfg, s', ref) && BankDue(s'.ch, BankOf(ref.addr), due') && closer {
        BankServedWithin(cfg, s', ref, due', ops[1..]);
      } else {
        assert end.log[|s.log|] == s'.log[|s.log|];
      }
    } else {
      var s' := OtherKeeps(cfg, s, ops[0]);
      StillFront(cfg, s, s', ref);
      StillToGo(cfg, s, s', ref, due);
      BankServedWithin(cfg, s', ref, due, ops[1..]);
    }
  }

  lemma NearBankDue(cfg: Config, s: Ctrl, k: nat, b: BankId)
    requires Shaped(cfg, s.ch) && TimersNear(cfg, s, k) && ValidBank(cfg, b)
    ensures BankDue(s.ch, b, s.clk + k)
  {
    assert NearBank(s.ch.banks[b], s.clk + k);
  }

  /** A bank refresh that reaches the front after any run is issued within the service time, unless
      there is a queue per bank and a bank of its rank is activated meanwhile. */
  lemma BankRefreshInTime(cfg: Config, k: nat, ops: seq<Op>, more: seq<Op>, ref: Command)
    requires ValidConfig(cfg) && DelaysWithin(cfg, k) && ref.ty == RefreshBank
    requires Run(cfg, ops).Some? && InFront(cfg, Run(cfg, ops).value, ref)
    requires TickCount(more) >= ServiceTime(cfg, k)
    ensures ServedOrActivated(cfg, Run(cfg, ops).value, more, ref)
  {
    hide Run, Inv, Shaped, DelaysWithin, InFront, ValidConfig, Exec, BankDue, ToGo, ServiceTime, TimersNear;
    var s := Run(cfg, ops).value;
    RunNear(cfg, k, ops);
    FrontAddressed(cfg, s, ref);
    FewToGo(cfg, k, s, ref);
    NearBankDue(cfg, s, k, BankOf(ref.addr));
    BankServedWithin(cfg, s, ref, s.clk + k, more);
  }
}
