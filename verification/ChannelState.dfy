/** The channel as the source runs it (runtime/DRAMsim3/src/channel_state.cc): an object whose
    loops visit banks and table entries one by one. Every method is tied to the function of
    module Channels that says what it computes. */
module ChannelMachine {
  import opened Common
  import opened Timing
  import opened Banks
  import opened Channels
  import opened Options
  import Arith

  // ---------------------------------------------------------------- what the loops have done so far

  /** `table` applied to the banks in `sel`. */
  ghost function ApplyWhere(m: map<BankId, BankState>, sel: iset<BankId>, table: seq<Entry>, clk: int)
    : map<BankId, BankState>
  {
    map b | b in m :: if b in sel then ApplyTable(m[b], table, clk) else m[b]
  }

  lemma ApplyMore(m: map<BankId, BankState>, s: iset<BankId>, t: iset<BankId>, table: seq<Entry>, clk: int)
    requires s !! t
    ensures ApplyWhere(ApplyWhere(m, s, table, clk), t, table, clk) == ApplyWhere(m, s + t, table, clk)
  {
    hide ApplyTable;
  }

  lemma ApplyNone(b: BankState, clk: int)
    ensures ApplyTable(b, [], clk) == b
  {
  }

  lemma {:induction false} ApplySnoc(b: BankState, table: seq<Entry>, e: Entry, clk: int)
    ensures ApplyTable(b, table + [e], clk) == UpdateTiming(ApplyTable(b, table, clk), e.ty, clk + e.delay)
    decreases |table|
  {
    hide UpdateTiming;
    if table == [] {
      assert ([e])[1..] == [];
    } else {
      ApplySnoc(UpdateTiming(b, table[0].ty, clk + table[0].delay), table[1..], e, clk);
      assert (table + [e])[1..] == table[1..] + [e];
    }
  }

  ghost predicate AllTake(m: map<BankId, BankState>, sel: iset<BankId>, cmd: Command) {
    forall b :: b in m && b in sel ==> UpdateState(m[b], cmd).Some?
  }

  /** The banks in `sel` after `cmd`. */
  ghost function StateWhere(m: map<BankId, BankState>, sel: iset<BankId>, cmd: Command): map<BankId, BankState>
    requires AllTake(m, sel, cmd)
  {
    map b | b in m :: if b in sel then UpdateState(m[b], cmd).value else m[b]
  }

  lemma StateMore(m: map<BankId, BankState>, s: iset<BankId>, t: iset<BankId>, cmd: Command)
    requires s !! t && AllTake(m, s, cmd)
    ensures AllTake(StateWhere(m, s, cmd), t, cmd) <==> AllTake(m, s + t, cmd)
    ensures AllTake(m, s + t, cmd) ==> StateWhere(StateWhere(m, s, cmd), t, cmd) == StateWhere(m, s + t, cmd)
  {
    hide UpdateState;
    assert forall b :: b in m && b in t ==> StateWhere(m, s, cmd)[b] == m[b];
  }

  /** Selections of banks made by loops that run up to a bound and may leave one index out. */
  ghost function BanksBelow(rank: int, bankgroup: int, skip: int, k: int): iset<BankId> {
    iset b: BankId | b.rank == rank && b.bankgroup == bankgroup && b.bank != skip && 0 <= b.bank < k
  }

  ghost function GroupsBelow(cfg: Config, rank: int, skip: int, j: int): iset<BankId> {
    iset b: BankId | b.rank == rank && b.bankgroup != skip && 0 <= b.bankgroup < j && 0 <= b.bank < cfg.banksPerGroup
  }

  ghost function RanksBelow(cfg: Config, skip: int, i: int): iset<BankId> {
    iset b: BankId | 0 <= b.rank < i && b.rank != skip
                     && 0 <= b.bankgroup < cfg.bankgroups && 0 <= b.bank < cfg.banksPerGroup
  }

  function CountReady(ch: map<BankId, BankState>, ids: seq<BankId>, cmd: Command, clk: int): (n: nat)
    requires forall i :: 0 <= i < |ids| ==> ids[i] in ch
    ensures n <= |ids|
    ensures n == |ids| <==> forall i :: 0 <= i < |ids| ==> GetReadyCommand(ch[ids[i]], cmd, clk).Issue?
  {
    if ids == [] then 0
    else
      var last := |ids| - 1;
      assert forall i :: 0 <= i < last ==> ids[..last][i] == ids[i];
      CountReady(ch, ids[..last], cmd, clk) + if GetReadyCommand(ch[ids[last]], cmd, clk).Issue? then 1 else 0
  }

  /** A rank scan has passed the first `p` banks and found `n` of them ready. */
  ghost predicate Passed(cfg: Config, ch: Channel, cmd: Command, clk: int, p: int, n: nat)
    requires Sized(cfg) && Shaped(cfg, ch) && 0 <= cmd.addr.rank < cfg.ranks
  {
    var ids := RankBanks(cfg, cmd.addr.rank);
    && 0 <= p <= |ids|
    && (forall i :: 0 <= i < p ==> !Stops(ch.banks[ids[i]], cmd, clk))
    && n == CountReady(ch.banks, ids[..p], cmd, clk)
  }

  lemma PassNone(cfg: Config, ch: Channel, cmd: Command, clk: int)
    requires Sized(cfg) && Shaped(cfg, ch) && 0 <= cmd.addr.rank < cfg.ranks
    ensures Passed(cfg, ch, cmd, clk, 0, 0)
  {
    hide RankBanks, GetReadyCommand;
  }

  lemma PassOne(cfg: Config, ch: Channel, cmd: Command, clk: int, p: nat, n: nat)
    requires Sized(cfg) && Shaped(cfg, ch) && 0 <= cmd.addr.rank < cfg.ranks
    requires Passed(cfg, ch, cmd, clk, p, n) && p < cfg.Banks()
    requires !Stops(ch.banks[RankBanks(cfg, cmd.addr.rank)[p]], cmd, clk)
    ensures Passed(cfg, ch, cmd, clk, p + 1,
                   if GetReadyCommand(ch.banks[RankBanks(cfg, cmd.addr.rank)[p]], cmd, clk).Issue? then n + 1 else n)
  {
    hide RankBanks, GetReadyCommand;
    var ids := RankBanks(cfg, cmd.addr.rank);
    assert ids[..p + 1][..p] == ids[..p];
  }

  /** A scan that stops at bank `p` has the answer. */
  lemma ScanStops(cfg: Config, ch: Channel, cmd: Command, clk: int, p: nat, n: nat)
    requires Sized(cfg) && Shaped(cfg, ch) && 0 <= cmd.addr.rank < cfg.ranks
    requires Passed(cfg, ch, cmd, clk, p, n) && p < cfg.Banks()
    requires Stops(ch.banks[RankBanks(cfg, cmd.addr.rank)[p]], cmd, clk)
    ensures var b := RankBanks(cfg, cmd.addr.rank)[p];
      RankReady(cfg, ch, cmd, clk) ==
      match GetReadyCommand(ch.banks[b], cmd, clk)
      case Issue(c) => Issue(Command(c.ty, Address(-1, b.rank, b.bankgroup, b.bank, -1, -1), cmd.hexAddr))
      case _ => Abort
  {
    hide GetReadyCommand, RankBanks, FirstStop;
    assert FirstStop(ch, RankBanks(cfg, cmd.addr.rank), cmd, clk) == p;
  }

  lemma ScanEnds(cfg: Config, ch: Channel, cmd: Command, clk: int, n: nat)
    requires Sized(cfg) && Shaped(cfg, ch) && 0 <= cmd.addr.rank < cfg.ranks
    requires Passed(cfg, ch, cmd, clk, cfg.Banks(), n)
    ensures RankReady(cfg, ch, cmd, clk) == if n == cfg.Banks() then Issue(cmd) else Wait
  {
    hide GetReadyCommand, RankBanks, FirstStop, CountReady;
    var ids := RankBanks(cfg, cmd.addr.rank);
    assert ids[..cfg.Banks()] == ids;
    assert FirstStop(ch, ids, cmd, clk) == cfg.Banks();
  }

  lemma BankAnswer(b: BankState, cmd: Command, clk: int)
    ensures GetReadyCommand(b, cmd, clk).Issue? ==> GetReadyCommand(b, cmd, clk).cmd.hexAddr == cmd.hexAddr
  {
  }

  /** Bank (j, k) is number j * banksPerGroup + k of its rank. */
  lemma RankBankAt(cfg: Config, rank: int, j: int, k: int)
    requires Sized(cfg) && 0 <= rank < cfg.ranks && 0 <= j < cfg.bankgroups && 0 <= k < cfg.banksPerGroup
    ensures var p := j * cfg.banksPerGroup + k; 0 <= p < cfg.Banks() && RankBanks(cfg, rank)[p] == BankId(rank, j, k)
  {
    Arith.Pack(j, k, cfg.bankgroups, cfg.banksPerGroup);
  }

  /** Every bank with the table that `cmd` consults for it applied. */
  ghost function Timed(cfg: Config, m: map<BankId, BankState>, cmd: Command, clk: int): map<BankId, BankState> {
    map b | b in m :: ApplyTable(m[b], Consulted(cfg, cmd, b), clk)
  }

  /** The four selections of a bank command are disjoint and cover the channel. */
  lemma TimedInParts(cfg: Config, m: map<BankId, BankState>, cmd: Command, clk: int)
    requires !IsRankCommand(cmd.ty) && (forall b :: b in m <==> ValidBank(cfg, b)) && ValidBank(cfg, BankOf(cmd.addr))
    ensures var a := cmd.addr;
      var m1 := ApplyWhere(m, iset{BankOf(a)}, SameBank(cfg, cmd.ty), clk);
      var m2 := ApplyWhere(m1, BanksBelow(a.rank, a.bankgroup, a.bank, cfg.banksPerGroup),
                           OtherBanksSameBankgroup(cfg, cmd.ty), clk);
      var m3 := ApplyWhere(m2, GroupsBelow(cfg, a.rank, a.bankgroup, cfg.bankgroups),
                           OtherBankgroupsSameRank(cfg, cmd.ty), clk);
      ApplyWhere(m3, RanksBelow(cfg, a.rank, cfg.ranks), OtherRanks(cfg, cmd.ty), clk) == Timed(cfg, m, cmd, clk)
  {
    hide ApplyTable, SameBank, OtherBanksSameBankgroup, OtherBankgroupsSameRank, OtherRanks, SameRank;
  }

  lemma TimedRank(cfg: Config, m: map<BankId, BankState>, cmd: Command, clk: int)
    requires IsRankCommand(cmd.ty) && forall b :: b in m <==> ValidBank(cfg, b)
    ensures ApplyWhere(m, GroupsBelow(cfg, cmd.addr.rank, -1, cfg.bankgroups), SameRank(cfg, cmd.ty), clk) ==
        Timed(cfg, m, cmd, clk)
  {
    hide ApplyTable, SameBank, OtherBanksSameBankgroup, OtherBankgroupsSameRank, OtherRanks, SameRank;
    forall b: BankState { ApplyNone(b, clk); }
  }

  class ChannelState {
    const cfg: Config
    var banks: map<BankId, BankState>
    var refreshQ: seq<Command>
    var fourAw: seq<seq<int>>
    var thirtyTwoAw: seq<seq<int>>

    function Abs(): Channel
      reads this
    {
      Channel(banks, refreshQ, fourAw, thirtyTwoAw)
    }

    ghost predicate Whole()
      reads this
    {
      Sized(cfg) && Shaped(cfg, Abs())
    }

    constructor (config: Config)
      requires Sized(config)
      ensures cfg == config && Abs() == InitialChannel(config)
    {
      cfg := config;
      refreshQ := [];
      fourAw := seq(config.ranks, _ => []);
      thirtyTwoAw := seq(config.ranks, _ => []);
      banks := map r, g, k | 0 <= r < config.ranks && 0 <= g < config.bankgroups && 0 <= k < config.banksPerGroup
                 :: BankId(r, g, k) := FRESH;
    }

    // -------------------------------------------------------------- queries

    /** A whole rank: bank by bank, stopping at the first that needs another command first. */
    method GetReadyRank(cmd: Command, clk: int) returns (r: Pick)
      requires Whole() && 0 <= cmd.addr.rank < cfg.ranks
      ensures r == RankReady(cfg, Abs(), cmd, clk)
    {
      hide Banks.GetReadyCommand, RankBanks, RankReady, Passed;
      PassNone(cfg, Abs(), cmd, clk);
      var numReady := 0;
      var j := 0;
      while j < cfg.bankgroups
        invariant 0 <= j <= cfg.bankgroups
        invariant Passed(cfg, Abs(), cmd, clk, j * cfg.banksPerGroup, numReady)
      {
        var k := 0;
        while k < cfg.banksPerGroup
          invariant 0 <= k <= cfg.banksPerGroup
          invariant Passed(cfg, Abs(), cmd, clk, j * cfg.banksPerGroup + k, numReady)
        {
          RankBankAt(cfg, cmd.addr.rank, j, k);
          var b := banks[BankId(cmd.addr.rank, j, k)];
          var ready := Banks.GetReadyCommand(b, cmd, clk);
          if Stops(b, cmd, clk) {
            ScanStops(cfg, Abs(), cmd, clk, j * cfg.banksPerGroup + k, numReady);
            BankAnswer(b, cmd, clk);
          } else {
            PassOne(cfg, Abs(), cmd, clk, j * cfg.banksPerGroup + k, numReady);
          }
          if ready.Abort? {
            return Abort;
          }
          if ready.Issue? {
            if ready.cmd.ty != cmd.ty {
              return Issue(Command(ready.cmd.ty, Address(-1, cmd.addr.rank, j, k, -1, -1), ready.cmd.hexAddr));
            }
            numReady := numReady + 1;
          }
          k := k + 1;
        }
        assert (j + 1) * cfg.banksPerGroup == j * cfg.banksPerGroup + k;
        j := j + 1;
      }
      ScanEnds(cfg, Abs(), cmd, clk, numReady);
      r := if numReady == cfg.Banks() then Issue(cmd) else Wait;
    }

    method GetReadyCommand(cmd: Command, clk: int) returns (r: Pick)
      requires Whole() && Addressed(cfg, cmd)
      ensures r == ReadyCommand(cfg, Abs(), cmd, clk)
    {
      if IsRankCommand(cmd.ty) {
        r := GetReadyRank(cmd, clk);
      } else {
        r := Banks.GetReadyCommand(banks[BankOf(cmd.addr)], cmd, clk);
        if r.Issue? && r.cmd.ty == Activate && !ActivationWindowOk(cfg, Abs(), r.cmd.addr.rank, clk) {
          r := Wait;
        }
      }
    }

    // -------------------------------------------------------------- row states

    method UpdateGroupState(bankgroup: int, cmd: Command) returns (ok: bool)
      requires forall k :: 0 <= k < cfg.banksPerGroup ==> BankId(cmd.addr.rank, bankgroup, k) in banks
      modifies this`banks
      ensures banks.Keys == old(banks).Keys
      ensures var sel := BanksBelow(cmd.addr.rank, bankgroup, -1, cfg.banksPerGroup);
        ok == AllTake(old(banks), sel, cmd) && (ok ==> banks == StateWhere(old(banks), sel, cmd))
    {
      hide Banks.UpdateState;
      ghost var m, rank := banks, cmd.addr.rank;
      ghost var all := BanksBelow(rank, bankgroup, -1, cfg.banksPerGroup);
      var k := 0;
      while k < cfg.banksPerGroup
        invariant 0 <= k && (k <= cfg.banksPerGroup || k == 0)
        invariant AllTake(m, BanksBelow(rank, bankgroup, -1, k), cmd)
        invariant banks == StateWhere(m, BanksBelow(rank, bankgroup, -1, k), cmd)
      {
        var b := BankId(cmd.addr.rank, bankgroup, k);
        ghost var sel := BanksBelow(rank, bankgroup, -1, k);
        assert sel + iset{b} == BanksBelow(rank, bankgroup, -1, k + 1);
        StateMore(m, sel, iset{b}, cmd);
        var next := Banks.UpdateState(banks[b], cmd);
        if next.None? {
          assert b in all && b in m && m[b] == banks[b];
          return false;
        }
        banks := banks[b := next.value];
        k := k + 1;
      }
      assert BanksBelow(rank, bankgroup, -1, k) == all;
      return true;
    }

    method UpdateState(cmd: Command) returns (ok: bool)
      requires Whole() && Addressed(cfg, cmd)
      modifies this`banks, this`refreshQ
      ensures ok == StatesAfter(cfg, old(Abs()), cmd).Some?
      ensures ok ==> Abs() == StatesAfter(cfg, old(Abs()), cmd).value && Whole()
    {
      hide Banks.UpdateState, DropRefresh;
      ghost var m := banks;
      if IsRankCommand(cmd.ty) {
        ghost var all := GroupsBelow(cfg, cmd.addr.rank, -1, cfg.bankgroups);
        CoversRank(cmd);
        var j := 0;
        while j < cfg.bankgroups
          invariant 0 <= j <= cfg.bankgroups
          invariant banks.Keys == m.Keys && refreshQ == old(refreshQ)
          invariant AllTake(m, GroupsBelow(cfg, cmd.addr.rank, -1, j), cmd)
          invariant banks == StateWhere(m, GroupsBelow(cfg, cmd.addr.rank, -1, j), cmd)
        {
          ghost var sel := GroupsBelow(cfg, cmd.addr.rank, -1, j);
          ghost var more := BanksBelow(cmd.addr.rank, j, -1, cfg.banksPerGroup);
          assert sel + more == GroupsBelow(cfg, cmd.addr.rank, -1, j + 1);
          StateMore(m, sel, more, cmd);
          var fine := UpdateGroupState(j, cmd);
          if !fine {
            TakeLess(m, sel + more, all, cmd);
            return false;
          }
          j := j + 1;
        }
      } else {
        var next := Banks.UpdateState(banks[BankOf(cmd.addr)], cmd);
        if next.None? {
          return false;
        }
        banks := banks[BankOf(cmd.addr) := next.value];
      }
      if IsRefresh(cmd.ty) {
        NoLongerNeedsRefresh(cmd);
      }
      return true;
    }

    lemma CoversRank(cmd: Command)
      requires Whole() && IsRankCommand(cmd.ty) && 0 <= cmd.addr.rank < cfg.ranks
      ensures forall b :: b in banks ==>
          (Covers(cfg, cmd, b) <==> b in GroupsBelow(cfg, cmd.addr.rank, -1, cfg.bankgroups))
    {
    }

    static lemma TakeLess(m: map<BankId, BankState>, s: iset<BankId>, t: iset<BankId>, cmd: Command)
      requires s <= t
      ensures AllTake(m, t, cmd) ==> AllTake(m, s, cmd)
    {
    }

    /** RankNeedRefresh(rank, false) or BankNeedRefresh(rank, bankgroup, bank, false): the first
        waiting refresh of the target leaves the queue. */
    method NoLongerNeedsRefresh(cmd: Command)
      modifies this`refreshQ
      ensures refreshQ == DropRefresh(old(refreshQ), cmd)
    {
      var i := 0;
      while i < |refreshQ|
        invariant 0 <= i <= |refreshQ| && refreshQ == old(refreshQ)
        invariant DropRefresh(refreshQ, cmd) == refreshQ[..i] + DropRefresh(refreshQ[i..], cmd)
      {
        if SameTarget(refreshQ[i], cmd, IsRankCommand(cmd.ty)) {
          refreshQ := refreshQ[..i] + refreshQ[i + 1..];
          return;
        }
        i := i + 1;
      }
    }

    // -------------------------------------------------------------- timers

    method UpdateBankTiming(b: BankId, table: seq<Entry>, clk: int)
      requires b in banks
      modifies this`banks
      ensures banks == ApplyWhere(old(banks), iset{b}, table, clk)
    {
      ghost var start := banks[b];
      hide ApplyTable, Banks.UpdateTiming;
      var i := 0;
      ApplyNone(start, clk);
      while i < |table|
        invariant 0 <= i <= |table|
        invariant b in old(banks) && banks == old(banks)[b := ApplyTable(start, table[..i], clk)]
      {
        ApplySnoc(start, table[..i], table[i], clk);
        assert table[..i + 1] == table[..i] + [table[i]];
        banks := banks[b := Banks.UpdateTiming(banks[b], table[i].ty, clk + table[i].delay)];
        i := i + 1;
      }
      assert table[..i] == table;
    }

    /** Banks of one bankgroup, except `skip`. */
    method UpdateGroupTiming(rank: int, bankgroup: int, skip: int, table: seq<Entry>, clk: int)
      requires forall k :: 0 <= k < cfg.banksPerGroup ==> BankId(rank, bankgroup, k) in banks
      modifies this`banks
      ensures banks == ApplyWhere(old(banks), BanksBelow(rank, bankgroup, skip, cfg.banksPerGroup), table, clk)
    {
      hide ApplyTable;
      var k := 0;
      while k < cfg.banksPerGroup
        invariant 0 <= k && (k <= cfg.banksPerGroup || k == 0)
        invariant banks == ApplyWhere(old(banks), BanksBelow(rank, bankgroup, skip, k), table, clk)
      {
        if k != skip {
          ghost var b := BankId(rank, bankgroup, k);
          UpdateBankTiming(BankId(rank, bankgroup, k), table, clk);
          ApplyMore(old(banks), BanksBelow(rank, bankgroup, skip, k), iset{b}, table, clk);
          assert BanksBelow(rank, bankgroup, skip, k) + iset{b} == BanksBelow(rank, bankgroup, skip, k + 1);
        } else {
          assert BanksBelow(rank, bankgroup, skip, k) == BanksBelow(rank, bankgroup, skip, k + 1);
        }
        k := k + 1;
      }
      assert BanksBelow(rank, bankgroup, skip, k) == BanksBelow(rank, bankgroup, skip, cfg.banksPerGroup);
    }

    /** Banks of one rank, except the bankgroup `skip`. */
    method UpdateRankTiming(rank: int, skip: int, table: seq<Entry>, clk: int)
      requires Whole() && 0 <= rank < cfg.ranks
      modifies this`banks
      ensures banks == ApplyWhere(old(banks), GroupsBelow(cfg, rank, skip, cfg.bankgroups), table, clk)
    {
      hide ApplyTable;
      var j := 0;
      while j < cfg.bankgroups
        invariant 0 <= j <= cfg.bankgroups
        invariant banks == ApplyWhere(old(banks), GroupsBelow(cfg, rank, skip, j), table, clk)
      {
        if j != skip {
          UpdateGroupTiming(rank, j, -1, table, clk);
          ApplyMore(old(banks), GroupsBelow(cfg, rank, skip, j), BanksBelow(rank, j, -1, cfg.banksPerGroup), table,
                    clk);
          assert GroupsBelow(cfg, rank, skip, j) + BanksBelow(rank, j, -1, cfg.banksPerGroup) ==
              GroupsBelow(cfg, rank, skip, j + 1);
        } else {
          assert GroupsBelow(cfg, rank, skip, j) == GroupsBelow(cfg, rank, skip, j + 1);
        }
        j := j + 1;
      }
    }

    /** Banks of every rank but `skip`. */
    method UpdateOtherRanksTiming(skip: int, table: seq<Entry>, clk: int)
      requires Whole()
      modifies this`banks
      ensures banks == ApplyWhere(old(banks), RanksBelow(cfg, skip, cfg.ranks), table, clk)
    {
      hide ApplyTable;
      var i := 0;
      while i < cfg.ranks
        invariant 0 <= i <= cfg.ranks
        invariant banks == ApplyWhere(old(banks), RanksBelow(cfg, skip, i), table, clk)
      {
        if i != skip {
          UpdateRankTiming(i, -1, table, clk);
          ApplyMore(old(banks), RanksBelow(cfg, skip, i), GroupsBelow(cfg, i, -1, cfg.bankgroups), table, clk);
          assert RanksBelow(cfg, skip, i) + GroupsBelow(cfg, i, -1, cfg.bankgroups) == RanksBelow(cfg, skip, i + 1);
        } else {
          assert RanksBelow(cfg, skip, i) == RanksBelow(cfg, skip, i + 1);
        }
        i := i + 1;
      }
    }

    method UpdateActivationTimes(rank: int, clk: int)
      requires Whole() && 0 <= rank < cfg.ranks
      modifies this`fourAw, this`thirtyTwoAw
      ensures fourAw == old(fourAw)[rank := WindowPush(old(fourAw)[rank], clk, cfg.tFAW)]
      ensures thirtyTwoAw ==
          if cfg.IsGDDR() then old(thirtyTwoAw)[rank := WindowPush(old(thirtyTwoAw)[rank], clk, cfg.t32AW)]
                             else old(thirtyTwoAw)
    {
      if fourAw[rank] != [] && clk >= fourAw[rank][0] {
        fourAw := fourAw[rank := fourAw[rank][1..]];
      }
      fourAw := fourAw[rank := fourAw[rank] + [clk + cfg.tFAW]];
      if cfg.IsGDDR() {
        if thirtyTwoAw[rank] != [] && clk >= thirtyTwoAw[rank][0] {
          thirtyTwoAw := thirtyTwoAw[rank := thirtyTwoAw[rank][1..]];
        }
        thirtyTwoAw := thirtyTwoAw[rank := thirtyTwoAw[rank] + [clk + cfg.t32AW]];
      }
    }

    method UpdateTiming(cmd: Command, clk: int)
      requires Whole() && Addressed(cfg, cmd)
      modifies this`banks, this`fourAw, this`thirtyTwoAw
      ensures Abs() == TimingAfter(cfg, old(Abs()), cmd, clk) && Whole()
    {
      hide ApplyTable, ApplyWhere, Consulted, BanksBelow, GroupsBelow, RanksBelow, WindowPush, SameBank,
           OtherBanksSameBankgroup, OtherBankgroupsSameRank, OtherRanks, SameRank;
      if cmd.ty == Activate {
        UpdateActivationTimes(cmd.addr.rank, clk);
      }
      UpdateBanksTiming(cmd, clk);
    }

    method UpdateBanksTiming(cmd: Command, clk: int)
      requires Whole() && Addressed(cfg, cmd)
      modifies this`banks
      ensures banks == Timed(cfg, old(banks), cmd, clk)
    {
      hide ApplyTable, Consulted, BanksBelow, GroupsBelow, RanksBelow, Timed, SameBank, OtherBanksSameBankgroup,
           OtherBankgroupsSameRank, OtherRanks, SameRank;
      var a := cmd.addr;
      if IsRankCommand(cmd.ty) {
        TimedRank(cfg, banks, cmd, clk);
        UpdateRankTiming(a.rank, -1, SameRank(cfg, cmd.ty), clk);
      } else {
        TimedInParts(cfg, banks, cmd, clk);
        UpdateBankTiming(BankOf(a), SameBank(cfg, cmd.ty), clk);
        UpdateGroupTiming(a.rank, a.bankgroup, a.bank, OtherBanksSameBankgroup(cfg, cmd.ty), clk);
        UpdateRankTiming(a.rank, a.bankgroup, OtherBankgroupsSameRank(cfg, cmd.ty), clk);
        UpdateOtherRanksTiming(a.rank, OtherRanks(cfg, cmd.ty), clk);
      }
    }

    method UpdateTimingAndStates(cmd: Command, clk: int) returns (ok: bool)
      requires Whole() && Addressed(cfg, cmd)
      modifies this
      ensures Update(cfg, old(Abs()), cmd, clk) == (if ok then Some(Abs()) else None) && (ok ==> Whole())
    {
      hide StatesAfter, TimingAfter;
      ok := UpdateState(cmd);
      if ok {
        UpdateTiming(cmd, clk);
      }
    }
  }
}
