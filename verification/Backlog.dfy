/** Bank refreshes inserted faster than they may follow each other: how many wait in every run, and
    when the number that wait stays bounded without any traffic. */
module Backlog {
  import opened Common
  import opened Timing
  import opened Channels
  import opened ChannelProofs
  import opened CommandQueues
  import opened Controllers
  import opened ControllerProofs
  import opened RefreshProofs
  import opened Runs
  import opened BankHistory
  import opened Progress
  import opened BankProgress
  import opened Service
  import opened Scenes
  import opened Lone
  import opened Trace
  import opened Options
  import Arith
  import RefreshGaps

  /** Cycles from the refresh of a bank to that of another bank of its rank. */
  function Pause(cfg: Config): int { Max(1, cfg.tREFI) }

  /** Cycles that the k-th refresh comes at least after the one before: only a change of bank inside a
      rank costs more than one. */
  function Cost(cfg: Config, k: nat): int
    requires cfg.Banks() != 0
  {
    if cfg.Banks() >= 2 && (cfg.ranks == 1 || k % cfg.Banks() != 0) then Pause(cfg) else 1
  }

  /** The costs of the refreshes 1 to `n`. */
  function Total(cfg: Config, n: nat): int
    requires cfg.Banks() != 0
  {
    if n == 0 then 0 else Total(cfg, n - 1) + Cost(cfg, n)
  }

  lemma BanksPos(cfg: Config)
    requires Sized(cfg)
    ensures 0 < cfg.Banks()
  {
    Arith.MulPos(cfg.bankgroups, cfg.banksPerGroup);
  }

  // ---------------------------------------------------------------- neighbours in the rotation

  /** A multiple of both is a multiple of the product. */
  lemma BothZero(k: nat, g: int, n: int)
    requires 0 < g && 0 < n
    ensures k % (g * n) == 0 <==> k % g == 0 && k / g % n == 0
  {
    Arith.MulPos(g, n);
    Arith.Split(k, g);
    Arith.Split(k / g, n);
    Arith.Pack(k / g % n, k % g, n, g);
    var x := k / g % n * g + k % g;
    assert k == k / g / n * (n * g) + x by {
      assert (k / g / n * n + k / g % n) * g == k / g / n * n * g + k / g % n * g;
      Arith.Assoc(k / g / n, n, g);
    }
    assert n * g == g * n;
    Arith.DivUnique(k, g * n, k / g / n, x);
    Arith.MulMono(0, k / g % n, g);
    if k / g % n > 0 { Arith.MulMono(1, k / g % n, g); }
  }

  lemma NextRank(rank: int, n: int)
    requires 0 <= rank < n && 2 <= n
    ensures (rank + 1) % n != rank
  {
    if rank + 1 < n { Arith.Small(rank + 1, n); } else { Arith.DivUnique(rank + 1, n, 1, 0); }
  }

  lemma NextPlace(g: int, n: int)
    requires 0 <= g < n
    ensures n >= 2 ==> (g + 1) % n != g
    ensures n == 1 ==> (g + 1) % n == 0
  {
    if n >= 2 { NextRank(g, n); } else { Arith.DivUnique(g + 1, 1, g + 1, 0); }
  }

  /** Neighbours in the rotation are different banks, and of one rank unless a rank is complete. */
  lemma Neighbours(cfg: Config, k: nat)
    requires Sized(cfg) && cfg.refreshPolicy == BankLevelStaggered && 1 <= k && cfg.Banks() != 0
    ensures var a, b := Target(cfg, k - 1).addr, Target(cfg, k).addr;
      && (cfg.Banks() >= 2 ==> BankOf(a) != BankOf(b))
      && (a.rank == b.rank <==> cfg.ranks == 1 || k % cfg.Banks() != 0)
      && (a.rank == b.rank || b.rank == (a.rank + 1) % cfg.ranks)
  {
    var g, n := cfg.bankgroups, cfg.banksPerGroup;
    CountersStep(cfg, k - 1, 0);
    BothZero(k, g, n);
    CountersRange(cfg, k - 1);
    var c := Counters(cfg, k - 1, 0);
    NextPlace(c.nextBg, g);
    NextPlace(c.nextBank, n);
    if cfg.ranks >= 2 { NextRank(c.nextRank, cfg.ranks); } else { NextPlace(c.nextRank, 1); }
    OneBank(g, n);
  }

  lemma OneBank(g: int, n: int)
    requires 0 < g && 0 < n
    ensures g * n >= 2 <==> g >= 2 || n >= 2
  {
    if g >= 2 { Arith.MulMono(2, g, n); } else { assert g * n == n; }
  }

  lemma CountersRange(cfg: Config, k: nat)
    requires Sized(cfg) && cfg.refreshPolicy == BankLevelStaggered
    ensures var c := Counters(cfg, k, 0);
      0 <= c.nextBg < cfg.bankgroups && 0 <= c.nextBank < cfg.banksPerGroup && 0 <= c.nextRank < cfg.ranks
  {
  }

  // ---------------------------------------------------------------- the refreshes of a trace

  /** Where the refreshes of a trace stand. */
  function Places(log: seq<Issued>): seq<nat> {
    if log == [] then []
    else Places(log[..|log| - 1]) + if IsRefresh(log[|log| - 1].cmd.ty) then [|log| - 1] else []
  }

  lemma {:induction false} PlacesOk(log: seq<Issued>)
    ensures |Places(log)| == |Refreshes(log)|
    ensures forall k :: 0 <= k < |Places(log)| ==>
        Places(log)[k] < |log| && log[Places(log)[k]].cmd == Refreshes(log)[k]
    ensures forall j, k :: 0 <= j < k < |Places(log)| ==> Places(log)[j] < Places(log)[k]
  {
    if log != [] {
      var before := log[..|log| - 1];
      PlacesOk(before);
      forall k | 0 <= k < |Places(log)| ensures Places(log)[k] < |log| && log[Places(log)[k]].cmd == Refreshes(log)[k] {
        if k < |Places(before)| { assert log[Places(before)[k]] == before[Places(before)[k]]; }
      }
    }
  }

  /** The cycle of the k-th refresh. */
  ghost function TimeOf(log: seq<Issued>, k: nat): int
    requires k < |Refreshes(log)|
  {
    PlacesOk(log);
    log[Places(log)[k]].clk
  }

  /** The refreshes of the trace are the first of the rotation. */
  ghost predicate Rotates(cfg: Config, log: seq<Issued>) {
    Sized(cfg) && forall k :: 0 <= k < |Refreshes(log)| ==> Refreshes(log)[k] == Target(cfg, k)
  }

  /** Each refresh keeps its distance from the one before. */
  lemma StepApart(cfg: Config, log: seq<Issued>, k: nat)
    requires TraceOk(cfg, log) && Rotates(cfg, log) && cfg.refreshPolicy == BankLevelStaggered && cfg.Banks() != 0
    requires 1 <= k < |Refreshes(log)|
    ensures TimeOf(log, k) >= TimeOf(log, k - 1) + Cost(cfg, k)
  {
    PlacesOk(log);
    Neighbours(cfg, k);
    hide Refreshes, Places, Target, Legal, ActivationsSpread, Spaced;
    var i, j := Places(log)[k - 1], Places(log)[k];
    assert log[i].cmd == Target(cfg, k - 1) && log[j].cmd == Target(cfg, k) && log[i].clk < log[j].clk;
    TargetIs(cfg, k - 1);
    TargetIs(cfg, k);
    if Cost(cfg, k) != 1 { HeldBack(cfg, log, i, j); }
  }

  lemma TargetIs(cfg: Config, k: nat)
    requires Sized(cfg) && cfg.refreshPolicy == BankLevelStaggered
    ensures Target(cfg, k).ty == RefreshBank
  {
  }

  lemma {:induction false} AllApart(cfg: Config, log: seq<Issued>, m: nat)
    requires TraceOk(cfg, log) && Rotates(cfg, log) && cfg.refreshPolicy == BankLevelStaggered && cfg.Banks() != 0
    requires m < |Refreshes(log)|
    ensures TimeOf(log, m) >= TimeOf(log, 0) + Total(cfg, m)
    decreases m
  {
    hide TraceOk, Rotates, Cost, TimeOf;
    if m > 0 {
      StepApart(cfg, log, m);
      AllApart(cfg, log, m - 1);
    }
  }

  /** In every run the refreshes issued are the first of the rotation. */
  lemma RunRotates(cfg: Config, ops: seq<Op>)
    requires ValidConfig(cfg)
    ensures Run(cfg, ops).Some? && Rotates(cfg, Run(cfg, ops).value.log)
  {
    hide Run, Refreshes, Insertions, Target, ValidConfig;
    SizedNow(cfg);
    RefreshesInOrder(cfg, ops);
    var s := Run(cfg, ops).value;
    forall k | 0 <= k < |Refreshes(s.log)| ensures Refreshes(s.log)[k] == Target(cfg, k) {
      assert (Refreshes(s.log) + s.ch.refreshQ)[k] == Refreshes(s.log)[k];
    }
  }

  // ---------------------------------------------------------------- no refresh before its insertion

  /** No refresh was issued before it was inserted. */
  ghost predicate NotEarly(cfg: Config, log: seq<Issued>)
    requires 0 < cfg.ranks
  {
    forall k :: 0 <= k < |Refreshes(log)| ==> TimeOf(log, k) >= (k + 1) * RefreshInterval(cfg)
  }

  lemma NotEarlyMore(cfg: Config, log: seq<Issued>, e: Issued)
    requires 0 < cfg.ranks && NotEarly(cfg, log)
    requires IsRefresh(e.cmd.ty) ==> e.clk >= (|Refreshes(log)| + 1) * RefreshInterval(cfg)
    ensures NotEarly(cfg, log + [e])
  {
    var log' := log + [e];
    assert log'[..|log|] == log;
    PlacesOk(log);
    PlacesOk(log');
    hide RefreshInterval;
    forall k | 0 <= k < |Refreshes(log')| ensures TimeOf(log', k) >= (k + 1) * RefreshInterval(cfg) {
      if k < |Refreshes(log)| { assert TimeOf(log, k) >= (k + 1) * RefreshInterval(cfg); }
    }
  }

  lemma TickNotEarly(cfg: Config, s: Ctrl) returns (s': Ctrl)
    requires Inv(cfg, s) && ValidConfig(cfg) && NotEarly(cfg, s.log)
    ensures Step(cfg, s, Tick) == Some(s') && NotEarly(cfg, s'.log)
  {
    hide Core, Choose, Past, InOrder, Update, Ready, Step, ValidConfig, Shaped, Shapely, KindOk, NotEarly,
         RefreshInterval;
    var s1;
    s1, s' := TickBanks(cfg, s);
    SizedNow(cfg);
    var r := Choose(cfg, s1).1;
    if r.Issue? {
      if IsRefresh(r.cmd.ty) { IssuedLate(cfg, s, s1); }
      NotEarlyMore(cfg, s.log, Issued(s.clk, r.cmd));
    }
  }

  /** A refresh that can be issued has been inserted. */
  lemma IssuedLate(cfg: Config, s: Ctrl, s1: Ctrl)
    requires Inv(cfg, s) && ValidConfig(cfg) && s1 == RefreshTick(cfg, s) && Core(cfg, s1) && Shapely(cfg, s1)
    requires var r := Choose(cfg, s1).1; r.Issue? && IsRefresh(r.cmd.ty)
    ensures s.clk >= (|Refreshes(s.log)| + 1) * RefreshInterval(cfg)
  {
    hide Past, Choose, Tracks, Books, RefreshState, QueuesShaped, Ready, Refreshes, Counters, Targets, Insertions,
         RefreshTick;
    var i, p, m := ChooseOk(cfg, s1);
    assert s1.ch.refreshQ != [];
    hide Core;
    var s1' := RefreshedOk(cfg, s);
    var n := Insertions(cfg, s.clk + 1);
    assert |Refreshes(s.log)| + |s1.ch.refreshQ| == n by { InOrderCount(cfg, s1); }
    InsertionsAt(cfg, s.clk, |Refreshes(s.log)|);
  }

  lemma InOrderCount(cfg: Config, s: Ctrl)
    requires ValidConfig(cfg) && InOrder(cfg, s)
    ensures |Refreshes(s.log)| + |s.ch.refreshQ| == Insertions(cfg, s.ref.clk)
  {
    hide Refreshes, Insertions, Counters, Target, ValidConfig;
    assert |Refreshes(s.log) + s.ch.refreshQ| == Insertions(cfg, s.ref.clk);
  }

  lemma InsertionsAt(cfg: Config, clk: nat, m: nat)
    requires ValidConfig(cfg) && Insertions(cfg, clk + 1) > m
    ensures clk >= (m + 1) * RefreshInterval(cfg)
  {
    var t := RefreshInterval(cfg);
    Arith.Split(clk, t);
    Arith.MulMono(m + 1, clk / t, t);
  }

  lemma {:induction false} RunNotEarly(cfg: Config, ops: seq<Op>)
    requires ValidConfig(cfg)
    ensures Run(cfg, ops).Some? && 0 < cfg.ranks && NotEarly(cfg, Run(cfg, ops).value.log)
  {
    RunInv(cfg, ops);
    SizedNow(cfg);
    hide ValidConfig, Inv, Step, NotEarly;
    if ops == [] {
      NotEarlyFirst(cfg);
    } else {
      RunNotEarly(cfg, ops[..|ops| - 1]);
      RunInv(cfg, ops[..|ops| - 1]);
      var s := Run(cfg, ops[..|ops| - 1]).value;
      if ops[|ops| - 1] == Tick {
        var s' := TickNotEarly(cfg, s);
      } else {
        var s' := OtherKeeps(cfg, s, ops[|ops| - 1]);
      }
    }
  }

  lemma NotEarlyFirst(cfg: Config)
    requires 0 < cfg.ranks
    ensures NotEarly(cfg, [])
  {
  }

  // ---------------------------------------------------------------- what waits in every run

  /** In every run, whatever arrives, the refreshes issued have taken their distances from each other,
      and all others inserted wait. */
  lemma RefreshRate(cfg: Config, ops: seq<Op>)
    requires ValidConfig(cfg) && cfg.refreshPolicy == BankLevelStaggered
    ensures Run(cfg, ops).Some? && cfg.Banks() != 0
    ensures var s := Run(cfg, ops).value; var m := |Refreshes(s.log)|;
      && |s.ch.refreshQ| == Insertions(cfg, s.clk) - m
      && (m > 0 ==> RefreshInterval(cfg) + Total(cfg, m - 1) < s.clk)
  {
    hide Run, ValidConfig, Refreshes, Insertions, Total, RefreshInterval, TraceOk, Rotates, TimeOf;
    SizedNow(cfg);
    BanksPos(cfg);
    CountNow(cfg, ops);
    RunNotEarly(cfg, ops);
    RunRotates(cfg, ops);
    TraceSafety(cfg, ops);
    var s := Run(cfg, ops).value;
    var m := |Refreshes(s.log)|;
    if m > 0 {
      AllApart(cfg, s.log, m - 1);
      assert TimeOf(s.log, 0) >= (0 + 1) * RefreshInterval(cfg);
      TimePast(cfg, s, m - 1);
    }
  }

  lemma TimePast(cfg: Config, s: Ctrl, k: nat)
    requires Inv(cfg, s) && k < |Refreshes(s.log)|
    ensures TimeOf(s.log, k) < s.clk
  {
    hide Core, InOrder, Refreshes, Places;
    PlacesOk(s.log);
  }

  // ---------------------------------------------------------------- a rank's worth of refreshes

  /** What as many refreshes as a rank has banks cost together. */
  function RankCost(cfg: Config): int {
    var b := cfg.Banks();
    if b < 2 then b else if cfg.ranks == 1 then b * Pause(cfg) else (b - 1) * Pause(cfg) + 1
  }

  /** They are inserted no faster than they may be issued. */
  predicate KeepsUp(cfg: Config)
    requires 0 < cfg.ranks
  {
    RankCost(cfg) <= cfg.Banks() * RefreshInterval(cfg)
  }

  lemma {:induction false} FirstTotals(cfg: Config, n: nat)
    requires 2 <= cfg.Banks() && n < cfg.Banks()
    ensures Total(cfg, n) == n * Pause(cfg)
  {
    if n > 0 {
      FirstTotals(cfg, n - 1);
      Arith.Small(n, cfg.Banks());
      assert n * Pause(cfg) == (n - 1) * Pause(cfg) + Pause(cfg);
    }
  }

  lemma FirstRank(cfg: Config)
    requires 1 <= cfg.Banks()
    ensures Total(cfg, cfg.Banks()) == RankCost(cfg)
  {
    var b := cfg.Banks();
    if b >= 2 {
      FirstTotals(cfg, b - 1);
      Arith.DivUnique(b, b, 1, 0);
      assert b * Pause(cfg) == (b - 1) * Pause(cfg) + Pause(cfg);
    } else {
      assert Total(cfg, 1) == Total(cfg, 0) + Cost(cfg, 1);
    }
  }

  /** The costs repeat with every rank. */
  lemma {:induction false} TotalRepeats(cfg: Config, n: nat)
    requires 1 <= cfg.Banks()
    ensures Total(cfg, n + cfg.Banks()) == Total(cfg, n) + RankCost(cfg)
  {
    var b := cfg.Banks();
    if n == 0 {
      FirstRank(cfg);
    } else {
      TotalRepeats(cfg, n - 1);
      hide RankCost, Pause;
      assert n + b == 1 * b + n;
      Arith.ModAdd(1, n, b);
      assert Cost(cfg, n + b) == Cost(cfg, n);
      assert Total(cfg, n + b) == Total(cfg, n + b - 1) + Cost(cfg, n + b);
    }
  }

  lemma {:induction false} TotalRanks(cfg: Config, q: nat)
    requires 1 <= cfg.Banks()
    ensures 0 <= q * cfg.Banks() && Total(cfg, q * cfg.Banks()) == q * RankCost(cfg)
  {
    hide RankCost, Cost;
    var b := cfg.Banks();
    Arith.MulMono(0, q, b);
    if q > 0 {
      TotalRanks(cfg, q - 1);
      assert q * b == (q - 1) * b + b;
      assert q * RankCost(cfg) == (q - 1) * RankCost(cfg) + RankCost(cfg);
      TotalRepeats(cfg, (q - 1) * b);
    }
  }

  lemma {:induction false} TotalGrows(cfg: Config, a: nat, n: nat)
    requires 1 <= cfg.Banks() && a <= n
    ensures Total(cfg, a) <= Total(cfg, n)
  {
    if a < n { TotalGrows(cfg, a, n - 1); }
  }

  /** A cycle from which on at least `n` refreshes wait. */
  function Late(cfg: Config, n: nat): int
    requires 0 < cfg.ranks
  {
    var t, b := RefreshInterval(cfg), cfg.Banks();
    t * (n + b) * (1 + t * b) + 1
  }

  /** If as many as `m` refreshes are issued by cycle `clk` although a rank's worth of them costs more
      than their insertions take, then many wait. */
  lemma ManyWait(t: int, b: int, c: int, n: nat, m: nat, total: int, clk: nat)
    requires 0 < t && 0 < b && c >= b * t + 1 && clk >= t * (n + b) * (1 + t * b) + 1
    requires m > 0 ==> total >= (m - 1) / b * c && total < clk
    ensures (clk - 1) / t - m >= n
  {
    var w := (clk - 1) / t - m;
    Arith.Split(clk - 1, t);
    Arith.MulPos(t, b);
    Arith.MulPos(t, n + b);
    if w < n {
      Arith.MulMono((clk - 1) / t, n + m - 1, t);
      assert clk - 1 < (n + m) * t by { assert (n + m) * t == (n + m - 1) * t + t; }
      TooMany(t, b, c, n, m, total, clk);
      assert false;
    }
  }

  lemma Rest(m: nat, b: int)
    requires 0 < m && 0 < b
    ensures 0 <= (m - 1) / b && m <= (m - 1) / b * b + b
  {
    Arith.Split(m - 1, b);
    Arith.QuotNonNeg(m - 1, b);
  }

  lemma TooMany(t: int, b: int, c: int, n: nat, m: nat, total: int, clk: nat)
    requires 0 < t && 0 < b && c >= b * t + 1 && clk - 1 < (n + m) * t
    requires m > 0 ==> total >= (m - 1) / b * c && total < clk
    ensures clk < t * (n + b) * (1 + t * b) + 1
  {
    var x, z := t * (n + b), t * b;
    Arith.MulPos(t, b);
    Arith.MulPos(t, n + b);
    Expand(t, n, b, m);
    Arith.MulMono(0, x, z);
    if m > 0 {
      RestTimes(m, b, t);
      Rest(m, b);
      IssuedFew(x, z, (m - 1) / b, c, total, clk);
    }
  }

  lemma Expand(t: int, n: int, b: int, m: int)
    ensures t * (n + b) * (1 + t * b) == t * (n + b) + t * (n + b) * (t * b)
    ensures t * (n + b) == n * t + t * b && (n + m) * t == n * t + m * t
  {
  }

  lemma RestTimes(m: nat, b: int, t: int)
    requires 0 < m && 0 < b && 0 < t
    ensures m * t <= (m - 1) / b * (t * b) + t * b
  {
    Rest(m, b);
    var q := (m - 1) / b;
    Arith.MulMono(m, q * b + b, t);
    assert (q * b + b) * t == q * b * t + b * t;
    Arith.Assoc(q, b, t);
  }

  lemma IssuedFew(x: int, z: int, q: nat, c: int, total: int, clk: int)
    requires 0 <= z && c >= z + 1 && total >= q * c && total < clk && clk - 1 < x + q * z
    ensures clk - 1 < x + x * z
  {
    Arith.MulMono(z + 1, c, q);
    assert (z + 1) * q == q * z + q;
    Arith.MulMono(q, x, z);
  }

  /** Where they are inserted faster than they may be issued, refreshes pile up in every run, whatever
      arrives: for every `n` at least `n` wait from some cycle on. */
  lemma PilesUp(cfg: Config, n: nat, ops: seq<Op>)
    requires ValidConfig(cfg) && cfg.refreshPolicy == BankLevelStaggered && !KeepsUp(cfg)
    requires Run(cfg, ops).Some? && Run(cfg, ops).value.clk >= Late(cfg, n)
    ensures |Run(cfg, ops).value.ch.refreshQ| >= n
  {
    hide Run, ValidConfig, Refreshes, Total, RefreshInterval, RankCost;
    SizedNow(cfg);
    IntervalPos(cfg);
    BanksPos(cfg);
    RefreshRate(cfg, ops);
    var s := Run(cfg, ops).value;
    var m, b, t := |Refreshes(s.log)|, cfg.Banks(), RefreshInterval(cfg);
    if m > 0 { RanksIssued(cfg, m); }
    LatePos(t, b, n);
    ManyWait(t, b, RankCost(cfg), n, m, if m > 0 then Total(cfg, m - 1) else 0, s.clk);
    InsertedBy(cfg, s.clk);
  }

  lemma RanksIssued(cfg: Config, m: nat)
    requires 1 <= cfg.Banks() && 0 < m
    ensures Total(cfg, m - 1) >= (m - 1) / cfg.Banks() * RankCost(cfg)
  {
    hide Total, RankCost;
    var b := cfg.Banks();
    Rest(m, b);
    TotalRanks(cfg, (m - 1) / b);
    Arith.Split(m - 1, b);
    TotalGrows(cfg, (m - 1) / b * b, m - 1);
  }

  lemma InsertedBy(cfg: Config, clk: nat)
    requires ValidConfig(cfg) && 0 < clk
    ensures 0 < RefreshInterval(cfg) && Insertions(cfg, clk) == (clk - 1) / RefreshInterval(cfg)
  {
  }

  lemma LatePos(t: int, b: int, n: nat)
    requires 0 < t && 0 < b
    ensures t * (n + b) * (1 + t * b) >= 0
  {
    Arith.MulPos(t, n + b);
    Arith.MulPos(t, b);
    Arith.MulPos(t * (n + b), 1 + t * b);
  }

  // ---------------------------------------------------------------- runs without traffic

  predicate Silent(ops: seq<Op>) { forall i :: 0 <= i < |ops| ==> !ops[i].Add? }

  predicate OnlyRefreshes(log: seq<Issued>) { forall i :: 0 <= i < |log| ==> IsRefresh(log[i].cmd.ty) }

  lemma {:induction false} NoRow(cfg: Config, log: seq<Issued>, b: BankId)
    requires OnlyRefreshes(log)
    ensures RowAfter(cfg, log, b) == None
  {
    if log != [] { NoRow(cfg, log[..|log| - 1], b); }
  }

  /** Without traffic no row is open, so a refresh needs no precharge. */
  lemma SilentPick(cfg: Config, s: Ctrl)
    requires Core(cfg, s) && Shapely(cfg, s) && QueueEmpty(s.cq) && OnlyRefreshes(s.log)
    ensures var r := Choose(cfg, s).1;
      r.Issue? ==> s.ch.refreshQ != [] && r.cmd == s.ch.refreshQ[0] && IsRefresh(r.cmd.ty)
  {
    hide Books, Choose, QueuesShaped, TimersMatch, WindowsMatch, TraceOk, ValidConfig, RowAfter, RefIndices;
    EmptyPick(cfg, s);
    var i, p, m := ChooseOk(cfg, s);
    var r := Choose(cfg, s).1;
    if r.Issue? && r.cmd.ty == Precharge {
      var b := BankOf(r.cmd.addr);
      assert Covers(cfg, r.cmd, b) && RowMatch(cfg, s.ch.banks[b], s.log, b);
      NoRow(cfg, s.log, b);
      assert false;
    }
  }

  ghost predicate Silence(cfg: Config, s: Ctrl) { Reaches(cfg, s) && Empty(s) && OnlyRefreshes(s.log) }

  lemma SilentTick(cfg: Config, s: Ctrl) returns (s1: Ctrl, s': Ctrl)
    requires Silence(cfg, s)
    ensures ValidConfig(cfg) && s1 == RefreshTick(cfg, s) && Core(cfg, s1) && Shapely(cfg, s1)
    ensures Step(cfg, s, Tick) == Some(s') && Silence(cfg, s') && s'.clk == s.clk + 1
    ensures match Choose(cfg, s1).1
      case Abort => false
      case Wait => s'.log == s.log
      case Issue(cmd) => s'.log == s.log + [Issued(s.clk, cmd)]
  {
    hide Core, Past, InOrder, Choose, Update, Ready, Shapely, Shaped, Step, ValidConfig, RefreshTick, KindOk;
    s1, s' := TickBanks(cfg, s);
    RefreshFrame(cfg, s);
    SilentPick(cfg, s1);
    var s'' := EmptyTick(cfg, s);
  }

  lemma SilentReturn(cfg: Config, s: Ctrl) returns (s': Ctrl)
    requires Silence(cfg, s)
    ensures ValidConfig(cfg) && Step(cfg, s, Return) == Some(s') && Silence(cfg, s') && s'.clk == s.clk
    ensures s'.log == s.log
  {
    hide Core, Past, InOrder, ValidConfig, FirstDone;
    s' := ReturnDoneTrans(s, s.clk).0;
    ReachStep(cfg, s, Return, s');
  }

  /** The latest cycle at which the k-th refresh goes out without traffic. */
  function Due(cfg: Config, k: nat): int
    requires 0 < cfg.ranks && cfg.Banks() != 0
  {
    var t := RefreshInterval(cfg);
    if k == 0 then t else Max((k + 1) * t, Due(cfg, k - 1) + Cost(cfg, k))
  }

  ghost predicate Punctual(cfg: Config, s: Ctrl) {
    && 0 < cfg.ranks && cfg.Banks() != 0 && s.clk <= Due(cfg, |s.log|)
    && forall k :: 0 <= k < |s.log| ==> s.log[k].clk <= Due(cfg, k)
  }

  lemma {:induction false} QuietPlaces(log: seq<Issued>)
    requires OnlyRefreshes(log)
    ensures |Refreshes(log)| == |log| && |Places(log)| == |log|
    ensures forall k :: 0 <= k < |log| ==> Places(log)[k] == k && Refreshes(log)[k] == log[k].cmd
  {
    if log != [] { QuietPlaces(log[..|log| - 1]); }
  }

  /** Without traffic the trace is the rotation, each refresh at its distance from the one before. */
  lemma QuietTrace(cfg: Config, s: Ctrl)
    requires Silence(cfg, s) && cfg.refreshPolicy == BankLevelStaggered
    ensures Sized(cfg) && cfg.Banks() != 0
    ensures forall k :: 0 <= k < |s.log| ==> s.log[k].cmd == Target(cfg, k)
    ensures forall k :: 1 <= k < |s.log| ==> s.log[k].clk >= s.log[k - 1].clk + Cost(cfg, k)
  {
    hide Inv, ValidConfig, Empty, Target, Cost, TraceOk, Rotates, OnlyRefreshes, Run;
    SizedNow(cfg);
    BanksPos(cfg);
    var ops :| Run(cfg, ops) == Some(s);
    RunRotates(cfg, ops);
    TraceSafety(cfg, ops);
    QuietSteps(cfg, s.log);
  }

  lemma QuietSteps(cfg: Config, log: seq<Issued>)
    requires TraceOk(cfg, log) && Rotates(cfg, log) && OnlyRefreshes(log) && cfg.Banks() != 0
    requires cfg.refreshPolicy == BankLevelStaggered
    ensures forall k :: 0 <= k < |log| ==> log[k].cmd == Target(cfg, k)
    ensures forall k :: 1 <= k < |log| ==> log[k].clk >= log[k - 1].clk + Cost(cfg, k)
  {
    hide Target, Cost, Refreshes, Places, TraceOk;
    QuietPlaces(log);
    forall k | 1 <= k < |log| ensures log[k].clk >= log[k - 1].clk + Cost(cfg, k) { StepApart(cfg, log, k); }
  }

  /** What the refresh of a bank asks of the precharge and refresh timers of others. */
  lemma RefreshAsks(cfg: Config, cmd: Command, b: BankId, e: Entry)
    requires cmd.ty == RefreshBank && e in Consulted(cfg, cmd, b) && e.ty in {Precharge, RefreshBank}
    ensures e == Entry(RefreshBank, cfg.tREFI) && b.rank == cmd.addr.rank && b != BankOf(cmd.addr)
  {
  }

  /** An earlier refresh of another bank of the rank holds the m-th back no longer than the one before does. */
  lemma PauseBound(cfg: Config, s: Ctrl, i: nat, m: nat)
    requires Silence(cfg, s) && cfg.refreshPolicy == BankLevelStaggered && i < m == |s.log|
    requires Sized(cfg) && cfg.Banks() != 0
    requires var a, b := Target(cfg, i).addr, Target(cfg, m).addr; a.rank == b.rank && BankOf(a) != BankOf(b)
    ensures s.log[i].clk + cfg.tREFI <= s.log[m - 1].clk + Cost(cfg, m)
  {
    hide Silence, Target, Cost;
    QuietTrace(cfg, s);
    LogGrows(cfg, s.log, i, m - 1);
    CostBetween(cfg, i, m);
    if Cost(cfg, m) < cfg.tREFI { LogGrows(cfg, s.log, i, m - 2); }
  }

  /** Either the m-th refresh comes the full distance after the one before, or that one did and is of another rank. */
  lemma CostBetween(cfg: Config, i: nat, m: nat)
    requires Sized(cfg) && cfg.Banks() != 0 && cfg.refreshPolicy == BankLevelStaggered && i < m
    requires var a, b := Target(cfg, i).addr, Target(cfg, m).addr; a.rank == b.rank && BankOf(a) != BankOf(b)
    ensures Cost(cfg, m) >= 1
    ensures Cost(cfg, m) >= cfg.tREFI || (i < m - 1 && Cost(cfg, m - 1) >= cfg.tREFI)
  {
    hide Target;
    TargetBank(cfg, i);
    TargetBank(cfg, m);
    SameRankBanks(cfg, BankOf(Target(cfg, i).addr), BankOf(Target(cfg, m).addr));
    Neighbours(cfg, m);
    if cfg.ranks != 1 && m % cfg.Banks() == 0 { LastOfRank(cfg, m); }
  }

  lemma LastOfRank(cfg: Config, m: nat)
    requires 2 <= cfg.Banks() && 0 < m && m % cfg.Banks() == 0
    ensures 2 <= m && (m - 1) % cfg.Banks() != 0
  {
    var b := cfg.Banks();
    Arith.Split(m, b);
    Arith.Split(m - 1, b);
    if (m - 1) % b == 0 {
      assert 1 == (m / b - (m - 1) / b) * b;
      if m / b > (m - 1) / b {
        Arith.MulMono(1, m / b - (m - 1) / b, b);
      } else {
        Arith.MulMono(m / b - (m - 1) / b, 0, b);
      }
      assert false;
    }
    if m == 1 { Arith.Small(1, b); }
  }

  lemma TargetBank(cfg: Config, k: nat)
    requires Sized(cfg) && cfg.refreshPolicy == BankLevelStaggered
    ensures ValidBank(cfg, BankOf(Target(cfg, k).addr))
  {
    CountersRange(cfg, k);
  }

  lemma SameRankBanks(cfg: Config, a: BankId, b: BankId)
    requires Sized(cfg) && ValidBank(cfg, a) && ValidBank(cfg, b) && a.rank == b.rank && a != b
    ensures cfg.Banks() >= 2
  {
    OneBank(cfg.bankgroups, cfg.banksPerGroup);
  }

  lemma {:induction false} LogGrows(cfg: Config, log: seq<Issued>, i: nat, j: nat)
    requires Sized(cfg) && cfg.Banks() != 0 && i <= j < |log|
    requires forall k :: 1 <= k < |log| ==> log[k].clk >= log[k - 1].clk + Cost(cfg, k)
    ensures log[i].clk <= log[j].clk
    decreases j - i
  {
    if i < j { LogGrows(cfg, log, i, j - 1); }
  }

  lemma CostPos(cfg: Config, k: nat)
    requires cfg.Banks() != 0
    ensures Cost(cfg, k) >= 1
  {
  }

  lemma DueLeast(cfg: Config, k: nat)
    requires 0 < cfg.ranks && cfg.Banks() != 0
    ensures Due(cfg, k) >= (k + 1) * RefreshInterval(cfg)
    ensures Due(cfg, k + 1) > Due(cfg, k) && Due(cfg, k + 1) >= Due(cfg, k) + Cost(cfg, k + 1)
  {
    CostPos(cfg, k + 1);
    hide Cost, RefreshInterval;
  }

  /** If the refresh in front is not issued, it is not yet due. */
  lemma NotYetDue(cfg: Config, s: Ctrl, s1: Ctrl)
    requires Silence(cfg, s) && Punctual(cfg, s) && cfg.refreshPolicy == BankLevelStaggered
    requires ValidConfig(cfg) && s1 == RefreshTick(cfg, s) && Core(cfg, s1) && Shapely(cfg, s1)
    requires Choose(cfg, s1).1 == Wait
    ensures s.clk < Due(cfg, |s.log|)
  {
    hide Silence, Punctual, Core, Shapely, Choose, RefreshTick, ValidConfig, Due, RefreshInterval, Refreshes, Target,
         Cost;
    var m := |s.log|;
    QuietTrace(cfg, s);
    FrontIsNext(cfg, s, s1);
    DueLeast(cfg, m);
    if s1.ch.refreshQ != [] {
      var b := BankOf(Target(cfg, m).addr);
      TimersDue(cfg, s, m, b);
      TargetIs(cfg, m);
      DueOf(cfg, s, s1, b, Due(cfg, m));
      WaitsForBank(cfg, s1, Due(cfg, m));
    }
  }

  lemma DueOf(cfg: Config, s: Ctrl, s1: Ctrl, b: BankId, due: int)
    requires BankDue(s.ch, b, due) && ValidConfig(cfg) && s1 == RefreshTick(cfg, s)
    ensures BankDue(s1.ch, b, due)
  {
    hide ValidConfig;
  }

  /** After the generator ran, what waits is the next of the rotation, unless it is not inserted yet. */
  lemma FrontIsNext(cfg: Config, s: Ctrl, s1: Ctrl)
    requires Silence(cfg, s) && ValidConfig(cfg) && s1 == RefreshTick(cfg, s)
    ensures s1.clk == s.clk && Sized(cfg)
    ensures if s1.ch.refreshQ == [] then s.clk < (|s.log| + 1) * RefreshInterval(cfg)
            else s1.ch.refreshQ[0] == Target(cfg, |s.log|)
  {
    hide Core, Past, ValidConfig, RefreshTick, Empty, Refreshes, Target, Insertions, Counters;
    SizedNow(cfg);
    var s1' := RefreshedOk(cfg, s);
    QuietPlaces(s.log);
    InOrderCount(cfg, s1);
    var n := Insertions(cfg, s.clk + 1);
    if s1.ch.refreshQ == [] {
      NotInserted(cfg, s.clk, |s.log|);
    } else {
      assert (Refreshes(s.log) + s1.ch.refreshQ)[|s.log|] == s1.ch.refreshQ[0];
    }
  }

  lemma NotInserted(cfg: Config, clk: nat, m: nat)
    requires ValidConfig(cfg) && Insertions(cfg, clk + 1) == m
    ensures clk < (m + 1) * RefreshInterval(cfg)
  {
    var t := RefreshInterval(cfg);
    Arith.Split(clk, t);
    assert (m + 1) * t == m * t + t;
  }

  /** Without traffic the bank that is next takes its refresh when it is due. */
  lemma TimersDue(cfg: Config, s: Ctrl, m: nat, b: BankId)
    requires Silence(cfg, s) && Punctual(cfg, s) && cfg.refreshPolicy == BankLevelStaggered && ValidConfig(cfg)
    requires Sized(cfg) && cfg.Banks() != 0 && m == |s.log| && b == BankOf(Target(cfg, m).addr)
    ensures BankDue(s.ch, b, Due(cfg, m))
  {
    hide Inv, Empty, OnlyRefreshes, ValidConfig, Due, RefreshInterval, Target, Cost, Shaped, Justified, Run;
    TargetBank(cfg, m);
    var ops :| Run(cfg, ops) == Some(s);
    RunJustified(cfg, ops);
    assert JustifiedBank(cfg, s.ch.banks[b], b, s.log) by { JustifiedAt(cfg, s, b); }
    DuePos(cfg, m);
    TimerDue(cfg, s, m, b, s.ch.banks[b].timing[Precharge], Precharge);
    TimerDue(cfg, s, m, b, s.ch.banks[b].timing[RefreshBank], RefreshBank);
  }

  lemma DuePos(cfg: Config, m: nat)
    requires ValidConfig(cfg) && cfg.Banks() != 0
    ensures 0 < cfg.ranks && 0 <= Due(cfg, m)
  {
    SizedNow(cfg);
    IntervalPos(cfg);
    hide ValidConfig, RefreshInterval, Due, Cost;
    DueLeast(cfg, m);
    Arith.MulMono(0, m + 1, RefreshInterval(cfg));
  }

  lemma TimerDue(cfg: Config, s: Ctrl, m: nat, b: BankId, time: int, ty: CommandType)
    requires Silence(cfg, s) && Punctual(cfg, s) && cfg.refreshPolicy == BankLevelStaggered
    requires Sized(cfg) && cfg.Banks() != 0 && m == |s.log| && b == BankOf(Target(cfg, m).addr)
    requires ty in {Precharge, RefreshBank} && (time == 0 || PutBy(cfg, time, ty, b, s.log)) && 0 <= Due(cfg, m)
    ensures time <= Due(cfg, m)
  {
    hide Silence, Due, Target, Cost, Consulted;
    if time != 0 {
      var i :| 0 <= i < |s.log| && Entry(ty, time - s.log[i].clk) in Consulted(cfg, s.log[i].cmd, b);
      QuietTrace(cfg, s);
      TargetIs(cfg, i);
      RefreshAsks(cfg, s.log[i].cmd, b, Entry(ty, time - s.log[i].clk));
      PauseBound(cfg, s, i, m);
      DueLeast(cfg, m - 1);
    }
  }

  lemma PunctualTick(cfg: Config, s: Ctrl) returns (s': Ctrl)
    requires Silence(cfg, s) && Punctual(cfg, s) && cfg.refreshPolicy == BankLevelStaggered
    ensures ValidConfig(cfg) && Step(cfg, s, Tick) == Some(s') && Silence(cfg, s') && Punctual(cfg, s')
  {
    hide Silence, Core, Choose, Shapely, Step, ValidConfig, RefreshTick, Due;
    var s1;
    s1, s' := SilentTick(cfg, s);
    DueLeast(cfg, |s.log|);
    if Choose(cfg, s1).1 == Wait { NotYetDue(cfg, s, s1); }
  }

  lemma {:induction false} SilentRun(cfg: Config, ops: seq<Op>)
    requires ValidConfig(cfg) && Silent(ops) && cfg.refreshPolicy == BankLevelStaggered
    ensures Run(cfg, ops).Some? && Silence(cfg, Run(cfg, ops).value) && Punctual(cfg, Run(cfg, ops).value)
  {
    hide ValidConfig, Silence, Punctual, Step;
    if ops == [] {
      FirstSilence(cfg);
    } else {
      var before := ops[..|ops| - 1];
      SilentRun(cfg, before);
      var s := Run(cfg, before).value;
      if ops[|ops| - 1] == Tick {
        var s' := PunctualTick(cfg, s);
      } else {
        var s' := SilentReturn(cfg, s);
        PunctualFrame(cfg, s, s');
      }
    }
  }

  lemma PunctualFrame(cfg: Config, s: Ctrl, s': Ctrl)
    requires Punctual(cfg, s) && s'.clk == s.clk && s'.log == s.log
    ensures Punctual(cfg, s')
  {
  }

  lemma FirstSilence(cfg: Config)
    requires ValidConfig(cfg)
    ensures Silence(cfg, Initial(cfg)) && Punctual(cfg, Initial(cfg))
  {
    SizedNow(cfg);
    BanksPos(cfg);
    DuePos(cfg, 0);
    hide ValidConfig, Inv, Due, InitialChannel;
    ReachInitial(cfg);
  }

  // ---------------------------------------------------------------- the backlog without traffic

  /** How far a refresh can fall behind inside its rank. */
  function Lag(cfg: Config): int
    requires 0 < cfg.ranks
  {
    Max(0, Pause(cfg) - RefreshInterval(cfg))
  }

  lemma LagStep(t: int, e: int, b: int, m: nat, x: int)
    requires 0 < t && 2 <= b && 1 <= m && x == Max(0, e - t)
    ensures m % b != 0 ==> m * t + (m - 1) % b * x + e <= (m + 1) * t + m % b * x
    ensures m % b == 0 && (b - 1) * e + 1 <= b * t ==> m * t + (m - 1) % b * x + 1 <= (m + 1) * t
  {
    assert (m + 1) * t == m * t + t;
    Arith.CountStep(m - 1, b);
    Arith.Split(m - 1, b);
    if m % b != 0 {
      OneMore(m, b);
      assert m % b * x == (m % b - 1) * x + x;
    } else {
      ZeroAfter(m, b);
      if x > 0 { assert (b - 1) * x == (b - 1) * e - (b - 1) * t; assert b * t == (b - 1) * t + t; }
    }
  }

  lemma OneMore(m: nat, b: int)
    requires 2 <= b && 1 <= m && m % b != 0
    ensures (m - 1) % b == m % b - 1
  {
    Arith.Split(m, b);
    Arith.DivUnique(m - 1, b, m / b, m % b - 1);
  }

  lemma ZeroAfter(m: nat, b: int)
    requires 2 <= b && 1 <= m && m % b == 0
    ensures (m - 1) % b == b - 1
  {
    Arith.Split(m, b);
    assert m - 1 == (m / b - 1) * b + (b - 1);
    Arith.DivUnique(m - 1, b, m / b - 1, b - 1);
  }

  lemma SmallerPause(b: int, e: int, t: int)
    requires 0 < b && b * e <= b * t
    ensures e <= t
  {
    assert (t + 1) * b == t * b + b;
    if e > t { Arith.MulMono(t + 1, e, b); }
  }

  /** Where insertions are slow enough, no refresh falls behind by more than a rank's worth of lags. */
  lemma {:induction false} DueBound(cfg: Config, m: nat)
    requires 0 < cfg.ranks && 1 <= cfg.Banks() && 0 < RefreshInterval(cfg) && KeepsUp(cfg)
    ensures Due(cfg, m) <= (m + 1) * RefreshInterval(cfg) + m % cfg.Banks() * Lag(cfg)
  {
    var t, b, x := RefreshInterval(cfg), cfg.Banks(), Lag(cfg);
    hide RefreshInterval, Lag, Cost, KeepsUp;
    Arith.Split(m, b);
    LagPos(cfg);
    Arith.MulMono(0, m % b, x);
    if m > 0 {
      DueBound(cfg, m - 1);
      CostLag(cfg, m);
    } else {
      Arith.Small(0, b);
    }
  }

  lemma CostLag(cfg: Config, m: nat)
    requires 0 < cfg.ranks && 1 <= cfg.Banks() && 0 < RefreshInterval(cfg) && KeepsUp(cfg) && 0 < m
    ensures var t, b, x := RefreshInterval(cfg), cfg.Banks(), Lag(cfg);
      m * t + (m - 1) % b * x + Cost(cfg, m) <= (m + 1) * t + m % b * x
  {
    hide RefreshInterval, Pause;
    var t, e, b, x := RefreshInterval(cfg), Pause(cfg), cfg.Banks(), Lag(cfg);
    assert (m + 1) * t == m * t + t;
    if b >= 2 && cfg.ranks > 1 {
      LagStep(t, e, b, m, x);
    } else if b >= 2 {
      SmallerPause(b, e, t);
    } else {
      AllZero(m);
    }
  }

  lemma AllZero(m: nat)
    requires 0 < m
    ensures (m - 1) % 1 == 0 && m % 1 == 0
  {
  }

  lemma FewWait(t: int, m: nat, clk: nat, x: nat)
    requires 0 < t && clk <= (m + 1) * t + x
    ensures clk > 0 ==> (clk - 1) / t - m <= x + 1
  {
    if clk > 0 {
      Arith.Split(clk - 1, t);
      if (clk - 1) / t >= m + x + 2 {
        Arith.MulMono(m + x + 2, (clk - 1) / t, t);
        assert (m + x + 2) * t == (m + 1) * t + (x + 1) * t;
        Arith.MulMono(1, t, x + 1);
        assert false;
      }
    }
  }

  /** Where insertions are slow enough, the number that wait stays bounded in every run without traffic. */
  lemma StaysBounded(cfg: Config, ops: seq<Op>)
    requires ValidConfig(cfg) && cfg.refreshPolicy == BankLevelStaggered && KeepsUp(cfg) && Silent(ops)
    ensures Run(cfg, ops).Some? && |Run(cfg, ops).value.ch.refreshQ| <= cfg.Banks() * Lag(cfg) + 1
  {
    hide ValidConfig, Run, Silence, Due, RefreshInterval, Refreshes, KeepsUp, Lag;
    SizedNow(cfg);
    IntervalPos(cfg);
    BanksPos(cfg);
    SilentRun(cfg, ops);
    CountNow(cfg, ops);
    var s := Run(cfg, ops).value;
    QuietCount(cfg, s);
    var m, b, x := |s.log|, cfg.Banks(), Lag(cfg);
    DueBound(cfg, m);
    Arith.Split(m, b);
    LagPos(cfg);
    Arith.MulMono(m % b, b, x);
    Arith.MulMono(0, m % b, x);
    Arith.MulMono(0, b, x);
    FewWait(RefreshInterval(cfg), m, s.clk, b * x);
    if s.clk > 0 { InsertedBy(cfg, s.clk); } else { assert Insertions(cfg, 0) == 0; }
  }

  lemma LagPos(cfg: Config)
    requires 0 < cfg.ranks
    ensures 0 <= Lag(cfg)
  {
  }

  lemma QuietCount(cfg: Config, s: Ctrl)
    requires Silence(cfg, s)
    ensures |Refreshes(s.log)| == |s.log|
  {
    hide Reaches, Empty;
    QuietPlaces(s.log);
  }

  /** The number of refreshes that wait is bounded over all runs without traffic. */
  ghost predicate BoundedIdle(cfg: Config)
    requires ValidConfig(cfg)
  {
    exists n: int :: WaitAtMost(cfg, n)
  }

  ghost predicate WaitAtMost(cfg: Config, n: int)
    requires ValidConfig(cfg)
  {
    forall ops :: Silent(ops) && Run(cfg, ops).Some? ==> |Run(cfg, ops).value.ch.refreshQ| <= n
  }

  lemma {:induction false} TicksClock(cfg: Config, n: nat)
    requires ValidConfig(cfg)
    ensures Silent(Ticks(n)) && Run(cfg, Ticks(n)).Some? && Run(cfg, Ticks(n)).value.clk == n
  {
    hide ValidConfig, Inv, Step;
    if n > 0 {
      TicksClock(cfg, n - 1);
      assert Ticks(n)[..n - 1] == Ticks(n - 1);
      RunInv(cfg, Ticks(n - 1));
      StepClock(cfg, Run(cfg, Ticks(n - 1)).value, Tick);
    }
  }

  /** The exact condition: the number of bank refreshes that wait is bounded without traffic if and only
      if a rank's worth of them costs no more cycles than their insertions take. */
  lemma BoundedIff(cfg: Config)
    requires ValidConfig(cfg) && cfg.refreshPolicy == BankLevelStaggered
    ensures BoundedIdle(cfg) <==> KeepsUp(cfg)
  {
    hide ValidConfig, Run, KeepsUp, Late, Lag;
    SizedNow(cfg);
    if KeepsUp(cfg) {
      forall ops | Silent(ops) && Run(cfg, ops).Some?
          ensures |Run(cfg, ops).value.ch.refreshQ| <= cfg.Banks() * Lag(cfg) + 1 {
        StaysBounded(cfg, ops);
      }
      assert WaitAtMost(cfg, cfg.Banks() * Lag(cfg) + 1);
    } else if BoundedIdle(cfg) {
      var n :| WaitAtMost(cfg, n);
      var clk := Max(0, Late(cfg, Max(0, n) + 1));
      TicksClock(cfg, clk);
      PilesUp(cfg, Max(0, n) + 1, Ticks(clk));
      assert false;
    }
  }

  /** In the memory of the runtime with BANK_LEVEL_STAGGERED a rank's worth of refreshes costs 87361
      cycles and is inserted in 15600: they pile up in every run. */
  lemma RuntimeBacklog(closed: bool, n: nat, ops: seq<Op>)
    ensures var cfg := RefreshGaps.DDR4_3200.(closePage := closed, refreshPolicy := BankLevelStaggered);
      && ValidConfig(cfg) && RankCost(cfg) == 87361 && cfg.Banks() * RefreshInterval(cfg) == 15600
      && Run(cfg, ops).Some?
      && (Run(cfg, ops).value.clk >= Late(cfg, n) ==> |Run(cfg, ops).value.ch.refreshQ| >= n)
  {
    var cfg := RefreshGaps.DDR4_3200.(closePage := closed, refreshPolicy := BankLevelStaggered);
    RefreshGaps.RuntimeValid(closed, BankLevelStaggered);
    assert RankCost(cfg) == 87361 && cfg.Banks() * RefreshInterval(cfg) == 15600;
    hide ValidConfig, Run, RankCost, RefreshInterval, Late;
    RefreshRate(cfg, ops);
    if Run(cfg, ops).value.clk >= Late(cfg, n) { PilesUp(cfg, n, ops); }
  }
}
