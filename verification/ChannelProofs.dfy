/** A channel tracks its trace: bank rows, timers and activation windows always agree with the
    commands issued so far, so a command that the channel calls ready extends the trace soundly. */
module ChannelProofs {
  import opened Common
  import opened Timing
  import opened Banks
  import opened Channels
  import opened Trace
  import opened Options

  ghost predicate RowsMatch(cfg: Config, ch: Channel, log: seq<Issued>)
    requires Shaped(cfg, ch)
  {
    forall b :: ValidBank(cfg, b) ==>
      RowMatch(cfg, ch.banks[b], log, b)
  }

  ghost predicate TimersMatch(cfg: Config, ch: Channel, log: seq<Issued>)
    requires Shaped(cfg, ch)
  {
    forall i, b, e :: 0 <= i < |log| && ValidBank(cfg, b) && e in Consulted(cfg, log[i].cmd, b) ==>
      log[i].clk + e.delay <= ch.banks[b].timing[e.ty]
  }

  /** `window` holds the expiry of the latest activations; every older one expired by the
      time of the latest. */
  ghost predicate WindowMatch(window: seq<int>, acts: seq<int>, n: nat, span: int) {
    && |window| <= n && |window| <= |acts|
    && (forall i :: 0 <= i < |window| ==> window[i] == acts[|acts| - |window| + i] + span)
    && (forall i :: 0 <= i < |acts| - |window| ==> acts[i] + span <= acts[|acts| - 1])
  }

  ghost predicate WindowsMatch(cfg: Config, ch: Channel, log: seq<Issued>)
    requires Shaped(cfg, ch)
  {
    forall rank :: 0 <= rank < cfg.ranks ==>
      && WindowMatch(ch.fourAw[rank], Activations(log, rank), 4, cfg.tFAW)
      && (cfg.IsGDDR() ==> WindowMatch(ch.thirtyTwoAw[rank], Activations(log, rank), 32, cfg.t32AW))
  }

  ghost predicate Tracks(cfg: Config, ch: Channel, log: seq<Issued>) {
    && Shaped(cfg, ch) && RowsMatch(cfg, ch, log) && TimersMatch(cfg, ch, log) && WindowsMatch(cfg, ch, log)
    && TraceOk(cfg, log)
  }

  /** What the channel promises of a command it hands out: legal for the row state and past
      the timer of every bank it covers. */
  ghost predicate Ready(cfg: Config, ch: Channel, cmd: Command, clk: int)
    requires Shaped(cfg, ch)
  {
    && Addressed(cfg, cmd)
    && cmd.ty != SrefEnter && cmd.ty != SrefExit
    && (forall b :: Covers(cfg, cmd, b) ==>
          && clk >= ch.banks[b].timing[cmd.ty]
          && (if IsReadWrite(cmd.ty) then ch.banks[b].state == Open && ch.banks[b].openRow == cmd.addr.row
              else if cmd.ty == Precharge then ch.banks[b].state == Open
              else ch.banks[b].state == Closed))
    && (cmd.ty == Activate ==> ActivationWindowOk(cfg, ch, cmd.addr.rank, clk))
  }

  /** A request that command queues and the refresh queue hold. */
  predicate Request(cfg: Config, cmd: Command) {
    Addressed(cfg, cmd) && (IsReadWrite(cmd.ty) || IsRefresh(cmd.ty))
  }

  lemma ReadyStep(cfg: Config, ch: Channel, req: Command, clk: int)
    requires Sized(cfg) && Shaped(cfg, ch) && Request(cfg, req) && !IsRankCommand(req.ty)
    requires forall b :: ValidBank(cfg, b) ==> ch.banks[b].state != Sref
    ensures var r := ReadyCommand(cfg, ch, req, clk);
      && r != Abort
      && (r.Issue? ==> Ready(cfg, ch, r.cmd, clk) && r.cmd.addr == req.addr && r.cmd.hexAddr == req.hexAddr
                       && r.cmd.ty in {req.ty, Activate, Precharge}
                       && (IsRefresh(req.ty) ==> r.cmd.ty != Activate))
  {
  }

  predicate CanPrecharge(b: BankState, clk: int) { b.state == Open && clk >= b.timing[Precharge] }

  predicate CanRefresh(b: BankState, clk: int) { b.state == Closed && clk >= b.timing[Refresh] }

  /** A rank refresh is handed out exactly when every bank of the rank can take it, and a
      precharge whenever some open bank can take that. */
  lemma RankReadyStep(cfg: Config, ch: Channel, req: Command, clk: int)
    requires Sized(cfg) && Shaped(cfg, ch) && Request(cfg, req) && req.ty == Refresh
    requires forall b :: ValidBank(cfg, b) ==> ch.banks[b].state != Sref
    ensures var r := RankReady(cfg, ch, req, clk);
      && r != Abort
      && (r.Issue? ==> Ready(cfg, ch, r.cmd, clk) && r.cmd.addr.rank == req.addr.rank
                       && (r.cmd == req || r.cmd.ty == Precharge))
      && (r == Wait ==>
            && (forall b :: Covers(cfg, req, b) ==> !CanPrecharge(ch.banks[b], clk))
            && (exists b :: Covers(cfg, req, b) && !CanRefresh(ch.banks[b], clk)))
  {
    var ids := RankBanks(cfg, req.addr.rank);
    var n := FirstStop(ch, ids, req, clk);
    if n < |ids| {
      var b := ids[n];
      var pre := Command(Precharge, Address(-1, b.rank, b.bankgroup, b.bank, -1, -1), req.hexAddr);
      assert BankOf(pre.addr) == b;
      assert RankReady(cfg, ch, req, clk) == Issue(pre);
    } else {
      forall b | Covers(cfg, req, b) ensures !CanPrecharge(ch.banks[b], clk) { assert b in ids; }
      if i :| 0 <= i < |ids| && !GetReadyCommand(ch.banks[ids[i]], req, clk).Issue? {
        assert Covers(cfg, req, ids[i]) && !CanRefresh(ch.banks[ids[i]], clk);
      } else {
        forall b | Covers(cfg, req, b) ensures CanRefresh(ch.banks[b], clk) { assert b in ids; }
      }
    }
  }

  lemma UpdateShaped(cfg: Config, ch: Channel, cmd: Command, clk: int)
    requires Shaped(cfg, ch) && Ready(cfg, ch, cmd, clk)
    ensures StatesAfter(cfg, ch, cmd).Some? && Update(cfg, ch, cmd, clk).Some?
    ensures Shaped(cfg, StatesAfter(cfg, ch, cmd).value) && Shaped(cfg, Update(cfg, ch, cmd, clk).value)
  {
    assert forall b :: b in ch.banks && Covers(cfg, cmd, b) ==> UpdateState(ch.banks[b], cmd).Some?;
  }

  /** How an update moves one bank: the row state as the command says, the timers up to what
      the consulted table asks and no further. */
  ghost predicate BankMoved(before: BankState, after: BankState, covered: bool, cmd: Command, table: seq<Entry>,
                            clk: int) {
    && (if covered && cmd.ty == Activate then after.state == Open && after.openRow == cmd.addr.row
        else if covered && cmd.ty in {ReadPrecharge, WritePrecharge, Precharge} then after.state == Closed
        else after.state == before.state && after.openRow == before.openRow)
    && (forall ty: CommandType :: before.timing[ty] <= after.timing[ty])
    && (forall e :: e in table ==> clk + e.delay <= after.timing[e.ty])
    && (forall ty: CommandType :: after.timing[ty] == before.timing[ty]
          || exists e :: e in table && e.ty == ty && after.timing[ty] == clk + e.delay)
  }

  lemma BankMoves(before: BankState, covered: bool, cmd: Command, table: seq<Entry>, clk: int)
    requires covered ==> UpdateState(before, cmd).Some?
    requires cmd.ty != SrefEnter && cmd.ty != SrefExit
    ensures var mid := if covered then UpdateState(before, cmd).value else before;
            BankMoved(before, ApplyTable(mid, table, clk), covered, cmd, table, clk)
  {
    var mid := if covered then UpdateState(before, cmd).value else before;
    ApplyTableTimers(mid, table, clk);
    var after := ApplyTable(mid, table, clk);
    assert mid.timing == before.timing;
    forall ty: CommandType ensures after.timing[ty] == before.timing[ty]
          || exists e :: e in table && e.ty == ty && after.timing[ty] == clk + e.delay {
      if after.timing[ty] != before.timing[ty] {
        var i :| 0 <= i < |table| && table[i].ty == ty && after.timing[ty] == clk + table[i].delay;
        assert table[i] in table;
      }
    }
  }

  lemma TimerFrom(before: BankState, after: BankState, covered: bool, cmd: Command, table: seq<Entry>, clk: int,
                  ty: CommandType)
    requires BankMoved(before, after, covered, cmd, table, clk) && after.timing[ty] != before.timing[ty]
    ensures before.timing[ty] < after.timing[ty] && Entry(ty, after.timing[ty] - clk) in table
  {
    var e :| e in table && e.ty == ty && after.timing[ty] == clk + e.delay;
    assert e == Entry(ty, after.timing[ty] - clk);
  }

  /** A timer that the table mentions only as `d` goes to that, if it is later. */
  lemma TimerMoves(before: BankState, after: BankState, covered: bool, cmd: Command, table: seq<Entry>, clk: int,
                   ty: CommandType, d: int)
    requires BankMoved(before, after, covered, cmd, table, clk)
    requires Entry(ty, d) in table && forall e :: e in table && e.ty == ty ==> e.delay == d
    ensures after.timing[ty] == Max(before.timing[ty], clk + d)
  {
    var e := Entry(ty, d);
    assert e in table && clk + e.delay <= after.timing[e.ty];
    if after.timing[ty] != before.timing[ty] { TimerFrom(before, after, covered, cmd, table, clk, ty); }
    hide BankMoved;
  }

  lemma TimerStays(before: BankState, after: BankState, covered: bool, cmd: Command, table: seq<Entry>, clk: int,
                   ty: CommandType)
    requires BankMoved(before, after, covered, cmd, table, clk) && forall e :: e in table ==> e.ty != ty
    ensures after.timing[ty] == before.timing[ty]
  {
  }

  lemma UpdateBank(cfg: Config, ch: Channel, cmd: Command, clk: int, b: BankId)
    requires Shaped(cfg, ch) && Ready(cfg, ch, cmd, clk) && ValidBank(cfg, b)
    ensures Update(cfg, ch, cmd, clk).Some? && Shaped(cfg, Update(cfg, ch, cmd, clk).value)
    ensures BankMoved(ch.banks[b], Update(cfg, ch, cmd, clk).value.banks[b], Covers(cfg, cmd, b), cmd,
                      Consulted(cfg, cmd, b), clk)
  {
    UpdateShaped(cfg, ch, cmd, clk);
    BankMoves(ch.banks[b], Covers(cfg, cmd, b), cmd, Consulted(cfg, cmd, b), clk);
  }

  lemma UpdateRows(cfg: Config, ch: Channel, cmd: Command, clk: int, log: seq<Issued>)
    requires Shaped(cfg, ch) && Ready(cfg, ch, cmd, clk) && RowsMatch(cfg, ch, log)
    ensures Update(cfg, ch, cmd, clk).Some? && Shaped(cfg, Update(cfg, ch, cmd, clk).value)
    ensures RowsMatch(cfg, Update(cfg, ch, cmd, clk).value, log + [Issued(clk, cmd)])
  {
    hide Update, Consulted, RowAfter, BankMoved, StatesAfter;
    UpdateShaped(cfg, ch, cmd, clk);
    var ch' := Update(cfg, ch, cmd, clk).value;
    forall b | ValidBank(cfg, b) ensures RowMatch(cfg, ch'.banks[b], log + [Issued(clk, cmd)], b) {
      UpdateBank(cfg, ch, cmd, clk, b);
      RowStep(cfg, ch.banks[b], ch'.banks[b], b, cmd, clk, log);
    }
  }

  ghost predicate RowMatch(cfg: Config, bank: BankState, log: seq<Issued>, b: BankId) {
    bank.state != Sref && RowAfter(cfg, log, b) == if bank.state == Open then Some(bank.openRow) else None
  }

  lemma RowStep(cfg: Config, before: BankState, after: BankState, b: BankId, cmd: Command, clk: int, log: seq<Issued>)
    requires RowMatch(cfg, before, log, b)
    requires BankMoved(before, after, Covers(cfg, cmd, b), cmd, Consulted(cfg, cmd, b), clk)
    ensures RowMatch(cfg, after, log + [Issued(clk, cmd)], b)
  {
    hide Consulted, Covers;
    var log' := log + [Issued(clk, cmd)];
    assert log'[..|log|] == log;
  }

  lemma UpdateTimers(cfg: Config, ch: Channel, cmd: Command, clk: int, log: seq<Issued>)
    requires Shaped(cfg, ch) && Ready(cfg, ch, cmd, clk) && TimersMatch(cfg, ch, log)
    ensures Update(cfg, ch, cmd, clk).Some? && Shaped(cfg, Update(cfg, ch, cmd, clk).value)
    ensures TimersMatch(cfg, Update(cfg, ch, cmd, clk).value, log + [Issued(clk, cmd)])
  {
    UpdateShaped(cfg, ch, cmd, clk);
    var ch' := Update(cfg, ch, cmd, clk).value;
    var log' := log + [Issued(clk, cmd)];
    forall i, b, e | 0 <= i < |log'| && ValidBank(cfg, b) && e in Consulted(cfg, log'[i].cmd, b)
      ensures log'[i].clk + e.delay <= ch'.banks[b].timing[e.ty]
    {
      UpdateBank(cfg, ch, cmd, clk, b);
      if i < |log| { assert log'[i] == log[i]; }
    }
  }

  lemma WindowStep(window: seq<int>, acts: seq<int>, clk: int, n: nat, span: int)
    requires 0 < n && WindowMatch(window, acts, n, span) && WindowOk(window, clk, n) && Windowed(acts, n, span)
    requires forall i :: 0 <= i < |acts| ==> acts[i] <= clk
    ensures WindowMatch(WindowPush(window, clk, span), acts + [clk], n, span)
    ensures Windowed(acts + [clk], n, span)
  {
    var acts' := acts + [clk];
    var d := |acts| - |window|;
    forall k | 0 <= k && k + n < |acts'| ensures acts'[k + n] >= acts'[k] + span {
      if k + n == |acts| && k >= d { assert window[k - d] == acts[k] + span; }
    }
    if window != [] && clk >= window[0] { assert window[0] == acts[d] + span; }
  }

  lemma UpdateWindows(cfg: Config, ch: Channel, cmd: Command, clk: int, log: seq<Issued>)
    requires Shaped(cfg, ch) && Ready(cfg, ch, cmd, clk) && WindowsMatch(cfg, ch, log) && ActivationsSpread(cfg, log)
    requires forall i :: 0 <= i < |log| ==> log[i].clk < clk
    ensures Update(cfg, ch, cmd, clk).Some? && Shaped(cfg, Update(cfg, ch, cmd, clk).value)
    ensures WindowsMatch(cfg, Update(cfg, ch, cmd, clk).value, log + [Issued(clk, cmd)])
    ensures ActivationsSpread(cfg, log + [Issued(clk, cmd)])
  {
    UpdateShaped(cfg, ch, cmd, clk);
    var log' := log + [Issued(clk, cmd)];
    assert log'[..|log|] == log;
    forall rank | 0 <= rank < cfg.ranks ensures
      && WindowMatch(Update(cfg, ch, cmd, clk).value.fourAw[rank], Activations(log', rank), 4, cfg.tFAW)
      && Windowed(Activations(log', rank), 4, cfg.tFAW)
      && (cfg.IsGDDR() ==>
            && WindowMatch(Update(cfg, ch, cmd, clk).value.thirtyTwoAw[rank], Activations(log', rank), 32, cfg.t32AW)
            && Windowed(Activations(log', rank), 32, cfg.t32AW))
    {
      ActivationsBelow(log, rank, clk);
      if cmd.ty == Activate && cmd.addr.rank == rank {
        WindowStep(ch.fourAw[rank], Activations(log, rank), clk, 4, cfg.tFAW);
        if cfg.IsGDDR() { WindowStep(ch.thirtyTwoAw[rank], Activations(log, rank), clk, 32, cfg.t32AW); }
      } else {
        assert Activations(log', rank) == Activations(log, rank);
      }
    }
  }

  lemma {:induction false} ActivationsBelow(log: seq<Issued>, rank: int, clk: int)
    requires forall i :: 0 <= i < |log| ==> log[i].clk < clk
    ensures forall i :: 0 <= i < |Activations(log, rank)| ==> Activations(log, rank)[i] < clk
  {
    if log != [] { ActivationsBelow(log[..|log| - 1], rank, clk); }
  }

  /** A ready command extends a legal, well-spaced trace to a legal, well-spaced trace. */
  lemma UpdateTrace(cfg: Config, ch: Channel, cmd: Command, clk: int, log: seq<Issued>)
    requires Tracks(cfg, ch, log) && Ready(cfg, ch, cmd, clk)
    requires forall i :: 0 <= i < |log| ==> log[i].clk < clk
    ensures Legal(cfg, log + [Issued(clk, cmd)]) && Timed(cfg, log + [Issued(clk, cmd)])
  {
    var log' := log + [Issued(clk, cmd)];
    assert forall i :: 0 <= i < |log| ==> log'[i] == log[i] && log'[..i] == log[..i];
    assert log'[..|log|] == log;
    assert LegalNext(cfg, log, cmd);
    forall i | 0 <= i < |log| ensures Spaced(cfg, log[i], Issued(clk, cmd)) {
      forall b, e | Covers(cfg, cmd, b) && e in Consulted(cfg, log[i].cmd, b) && e.ty == cmd.ty
        ensures clk >= log[i].clk + e.delay {
        assert ValidBank(cfg, b);
      }
    }
  }

  /** The channel and its trace stay in step when a ready command goes out. */
  lemma UpdateTracks(cfg: Config, ch: Channel, cmd: Command, clk: int, log: seq<Issued>)
    requires Tracks(cfg, ch, log) && Ready(cfg, ch, cmd, clk)
    requires forall i :: 0 <= i < |log| ==> log[i].clk < clk
    ensures Update(cfg, ch, cmd, clk).Some?
    ensures Tracks(cfg, Update(cfg, ch, cmd, clk).value, log + [Issued(clk, cmd)])
  {
    UpdateRows(cfg, ch, cmd, clk, log);
    UpdateTimers(cfg, ch, cmd, clk, log);
    UpdateWindows(cfg, ch, cmd, clk, log);
    UpdateTrace(cfg, ch, cmd, clk, log);
  }

  lemma InitialTracks(cfg: Config)
    requires Sized(cfg)
    ensures Tracks(cfg, InitialChannel(cfg), [])
  {
    forall b ensures b in InitialChannel(cfg).banks <==> ValidBank(cfg, b) {
      assert b == BankId(b.rank, b.bankgroup, b.bank);
    }
  }
}
