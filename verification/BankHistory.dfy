/** What a bank keeps of the trace: timers that stand where some command put them, and the number of
    accesses since its row was opened. */
module BankHistory {
  import opened Common
  import opened Timing
  import opened Banks
  import opened Channels
  import opened ChannelProofs
  import opened Controllers
  import opened ControllerProofs
  import opened RefreshProofs
  import opened Runs
  import opened Progress
  import opened Trace
  import opened Options

  /** Each timer stands where some command of the trace put it. */
  ghost predicate JustifiedBank(cfg: Config, bank: BankState, b: BankId, log: seq<Issued>) {
    forall ty: CommandType :: bank.timing[ty] == 0 || PutBy(cfg, bank.timing[ty], ty, b, log)
  }

  ghost predicate PutBy(cfg: Config, time: int, ty: CommandType, b: BankId, log: seq<Issued>) {
    exists i :: 0 <= i < |log| && Entry(ty, time - log[i].clk) in Consulted(cfg, log[i].cmd, b)
  }

  ghost predicate Justified(cfg: Config, s: Ctrl)
    requires Shaped(cfg, s.ch)
  {
    forall b :: ValidBank(cfg, b) ==> JustifiedBank(cfg, s.ch.banks[b], b, s.log)
  }

  lemma PutLater(cfg: Config, time: int, ty: CommandType, b: BankId, log: seq<Issued>, e: Issued)
    requires PutBy(cfg, time, ty, b, log)
    ensures PutBy(cfg, time, ty, b, log + [e])
  {
    hide Consulted;
    var i :| 0 <= i < |log| && Entry(ty, time - log[i].clk) in Consulted(cfg, log[i].cmd, b);
    assert (log + [e])[i] == log[i];
  }

  lemma BankJustified(cfg: Config, before: BankState, after: BankState, b: BankId, log: seq<Issued>, cmd: Command,
                      clk: int)
    requires JustifiedBank(cfg, before, b, log)
    requires BankMoved(before, after, Covers(cfg, cmd, b), cmd, Consulted(cfg, cmd, b), clk)
    ensures JustifiedBank(cfg, after, b, log + [Issued(clk, cmd)])
  {
    hide Consulted, Covers, BankMoved;
    var e := Issued(clk, cmd);
    forall ty: CommandType ensures after.timing[ty] == 0 || PutBy(cfg, after.timing[ty], ty, b, log + [e]) {
      if after.timing[ty] != before.timing[ty] {
        TimerFrom(before, after, Covers(cfg, cmd, b), cmd, Consulted(cfg, cmd, b), clk, ty);
        assert (log + [e])[|log|] == e;
      } else if after.timing[ty] != 0 {
        PutLater(cfg, after.timing[ty], ty, b, log, e);
      }
    }
  }

  lemma TickJustified(cfg: Config, s: Ctrl) returns (s': Ctrl)
    requires Inv(cfg, s) && Shaped(cfg, s.ch) && Justified(cfg, s)
    ensures Step(cfg, s, Tick) == Some(s') && Shaped(cfg, s'.ch) && Justified(cfg, s')
  {
    hide Core, Choose, Past, InOrder, Update, Ready, Step, ValidConfig, Consulted, BankMoved, JustifiedBank, KindOk,
         Shapely;
    var s1;
    s1, s' := TickBanks(cfg, s);
    var r := Choose(cfg, s1).1;
    if r.Issue? {
      forall b | ValidBank(cfg, b) ensures JustifiedBank(cfg, s'.ch.banks[b], b, s'.log) {
        UpdateBank(cfg, s1.ch, r.cmd, s.clk, b);
        BankJustified(cfg, s1.ch.banks[b], s'.ch.banks[b], b, s.log, r.cmd, s.clk);
      }
    }
  }

  lemma FirstJustified(cfg: Config)
    requires ValidConfig(cfg)
    ensures Shaped(cfg, Initial(cfg).ch) && Justified(cfg, Initial(cfg))
  {
    InitialTracks(cfg);
  }

  /** In every run no timer is later than the trace and the tables ask. */
  lemma {:induction false} RunJustified(cfg: Config, ops: seq<Op>)
    requires ValidConfig(cfg)
    ensures Run(cfg, ops).Some? && Shaped(cfg, Run(cfg, ops).value.ch) && Justified(cfg, Run(cfg, ops).value)
  {
    hide ValidConfig, Inv, Step, Shaped, Justified;
    if ops == [] {
      FirstJustified(cfg);
    } else {
      RunInv(cfg, ops[..|ops| - 1]);
      RunJustified(cfg, ops[..|ops| - 1]);
      var s := Run(cfg, ops[..|ops| - 1]).value;
      if ops[|ops| - 1] == Tick {
        var s' := TickJustified(cfg, s);
      } else {
        var s' := OtherKeeps(cfg, s, ops[|ops| - 1]);
        JustifiedFrame(cfg, s, s');
      }
    }
  }

  lemma JustifiedFrame(cfg: Config, s: Ctrl, s': Ctrl)
    requires Shaped(cfg, s.ch) && Justified(cfg, s) && s'.ch == s.ch && s'.log == s.log
    ensures Shaped(cfg, s'.ch) && Justified(cfg, s')
  {
  }

  lemma JustifiedAt(cfg: Config, s: Ctrl, b: BankId)
    requires Shaped(cfg, s.ch) && Justified(cfg, s) && ValidBank(cfg, b)
    ensures b in s.ch.banks && JustifiedBank(cfg, s.ch.banks[b], b, s.log)
  {
  }

  // ---------------------------------------------------------------- row hits

  /** Accesses to bank `b` since its row was opened. */
  function HitsAfter(cfg: Config, log: seq<Issued>, b: BankId): nat {
    if log == [] then 0
    else
      var cmd, hits := log[|log| - 1].cmd, HitsAfter(cfg, log[..|log| - 1], b);
      if !Covers(cfg, cmd, b) then hits
      else if cmd.ty in {Read, Write} then hits + 1
      else if cmd.ty in {Activate, ReadPrecharge, WritePrecharge, Precharge} then 0
      else hits
  }

  predicate HitMatch(cfg: Config, bank: BankState, log: seq<Issued>, b: BankId) {
    bank.rowHits == HitsAfter(cfg, log, b) && (bank.state == Closed ==> bank.rowHits == 0)
  }

  ghost predicate HitsMatch(cfg: Config, ch: Channel, log: seq<Issued>)
    requires Shaped(cfg, ch)
  {
    forall b :: ValidBank(cfg, b) ==> HitMatch(cfg, ch.banks[b], log, b)
  }

  lemma HitStep(cfg: Config, bank: BankState, log: seq<Issued>, b: BankId, cmd: Command, clk: int, table: seq<Entry>)
    requires HitMatch(cfg, bank, log, b) && (Covers(cfg, cmd, b) ==> UpdateState(bank, cmd).Some?)
    requires cmd.ty != SrefEnter && cmd.ty != SrefExit
    ensures var mid := if Covers(cfg, cmd, b) then UpdateState(bank, cmd).value else bank;
      HitMatch(cfg, ApplyTable(mid, table, clk), log + [Issued(clk, cmd)], b)
  {
    var mid := if Covers(cfg, cmd, b) then UpdateState(bank, cmd).value else bank;
    ApplyTableTimers(mid, table, clk);
    hide ApplyTable;
    assert (log + [Issued(clk, cmd)])[..|log|] == log;
  }

  lemma UpdateHits(cfg: Config, ch: Channel, cmd: Command, clk: int, log: seq<Issued>)
    requires Shaped(cfg, ch) && Ready(cfg, ch, cmd, clk) && HitsMatch(cfg, ch, log)
    ensures Update(cfg, ch, cmd, clk).Some? && Shaped(cfg, Update(cfg, ch, cmd, clk).value)
    ensures HitsMatch(cfg, Update(cfg, ch, cmd, clk).value, log + [Issued(clk, cmd)])
  {
    UpdateShaped(cfg, ch, cmd, clk);
    hide HitMatch, Consulted, ApplyTable;
    forall b | ValidBank(cfg, b)
        ensures HitMatch(cfg, Update(cfg, ch, cmd, clk).value.banks[b], log + [Issued(clk, cmd)], b) {
      HitStep(cfg, ch.banks[b], log, b, cmd, clk, Consulted(cfg, cmd, b));
    }
  }

  lemma FirstHits(cfg: Config)
    requires ValidConfig(cfg)
    ensures Shaped(cfg, Initial(cfg).ch) && HitsMatch(cfg, Initial(cfg).ch, [])
  {
    InitialTracks(cfg);
  }

  lemma HitsFrame(cfg: Config, ch: Channel, ch': Channel, log: seq<Issued>)
    requires Shaped(cfg, ch) && Shaped(cfg, ch') && ch'.banks == ch.banks && HitsMatch(cfg, ch, log)
    ensures HitsMatch(cfg, ch', log)
  {
    hide HitMatch;
  }

  /** In every run each bank counts the accesses since its row was opened. */
  lemma {:induction false} RunHits(cfg: Config, ops: seq<Op>)
    requires ValidConfig(cfg)
    ensures Run(cfg, ops).Some? && Shaped(cfg, Run(cfg, ops).value.ch)
    ensures HitsMatch(cfg, Run(cfg, ops).value.ch, Run(cfg, ops).value.log)
  {
    hide ValidConfig, Inv, Step, Shaped, HitsMatch;
    if ops == [] {
      FirstHits(cfg);
    } else {
      RunInv(cfg, ops[..|ops| - 1]);
      RunHits(cfg, ops[..|ops| - 1]);
      var s := Run(cfg, ops[..|ops| - 1]).value;
      if ops[|ops| - 1] == Tick {
        var s' := TickHits(cfg, s);
      } else {
        var s' := OtherKeeps(cfg, s, ops[|ops| - 1]);
      }
    }
  }

  lemma TickHits(cfg: Config, s: Ctrl) returns (s': Ctrl)
    requires Inv(cfg, s) && Shaped(cfg, s.ch) && HitsMatch(cfg, s.ch, s.log)
    ensures Step(cfg, s, Tick) == Some(s') && Shaped(cfg, s'.ch) && HitsMatch(cfg, s'.ch, s'.log)
  {
    hide Core, Choose, Past, InOrder, Update, Ready, Step, ValidConfig, HitsMatch, KindOk, Shapely, Shaped;
    var s1;
    s1, s' := TickBanks(cfg, s);
    HitsFrame(cfg, s.ch, s1.ch, s.log);
    var r := Choose(cfg, s1).1;
    if r.Issue? { UpdateHits(cfg, s1.ch, r.cmd, s.clk, s.log); }
  }
}
