/** Refreshes in time: a bound on the wait in front of the queue that holds in every run, and what it
    gives counted from the insertion. */
module Service {
  import opened Common
  import opened Timing
  import opened Channels
  import opened ChannelProofs
  import opened CommandQueues
  import opened Controllers
  import opened ControllerProofs
  import opened RefreshProofs
  import opened Runs
  import opened Progress
  import opened BankProgress
  import opened Trace
  import Arith

  /** In every run every refresh that reaches the front is issued within `n` further ticks. */
  ghost predicate Prompt(cfg: Config, n: int) {
    && ValidConfig(cfg)
    && forall ops, more, ref ::
      (Run(cfg, ops).Some? && InFront(cfg, Run(cfg, ops).value, ref) && TickCount(more) >= n) ==>
        ServedIn(cfg, Run(cfg, ops).value, more, ref)
  }

  lemma FrontKind(cfg: Config, s: Ctrl, ref: Command)
    requires Inv(cfg, s) && InFront(cfg, s, ref)
    ensures ref.ty == if cfg.refreshPolicy == BankLevelStaggered then RefreshBank else Refresh
  {
    hide Books, Tracks, InOrder, ValidConfig, Past, RefIndices;
    var s1 := RefreshedOk(cfg, s);
    assert s1.ch.refreshQ[0] == ref;
  }

  /** With rank refreshes, or with a queue per rank, the service time is such a bound. */
  lemma PromptHolds(cfg: Config, k: nat)
    requires ValidConfig(cfg) && DelaysWithin(cfg, k)
    requires cfg.refreshPolicy == RankLevelStaggered || cfg.perRankQueues
    ensures Prompt(cfg, ServiceTime(cfg, k))
  {
    hide Run, Inv, DelaysWithin, InFront, ValidConfig, Exec, ServiceTime;
    forall ops, more, ref | Run(cfg, ops).Some? && InFront(cfg, Run(cfg, ops).value, ref)
                            && TickCount(more) >= ServiceTime(cfg, k)
      ensures ServedIn(cfg, Run(cfg, ops).value, more, ref)
    {
      RunInv(cfg, ops);
      FrontKind(cfg, Run(cfg, ops).value, ref);
      if ref.ty == Refresh {
        RefreshInTime(cfg, k, ops, more, ref);
      } else {
        BankRefreshInTime(cfg, k, ops, more, ref);
      }
    }
  }

  // ---------------------------------------------------------------- parts of a run

  lemma StepClock(cfg: Config, s: Ctrl, op: Op)
    requires Inv(cfg, s)
    ensures ValidConfig(cfg) && Step(cfg, s, op).Some?
    ensures Step(cfg, s, op).value.clk == s.clk + if op == Tick then 1 else 0
    ensures s.log <= Step(cfg, s, op).value.log
  {
    hide Core, Past, InOrder, Step, Choose, ValidConfig, Shapely, Shaped, Ready, Update, KindOk;
    if op == Tick { var s1, s' := TickBanks(cfg, s); } else { var s' := OtherKeeps(cfg, s, op); }
  }

  lemma RunNext(cfg: Config, ops: seq<Op>, n: nat)
    requires ValidConfig(cfg) && n < |ops|
    ensures Run(cfg, ops[..n]).Some? && Run(cfg, ops[..n + 1]) == Step(cfg, Run(cfg, ops[..n]).value, ops[n])
  {
    hide ValidConfig, Inv, Step;
    RunInv(cfg, ops[..n]);
    assert ops[..n + 1][..n] == ops[..n] && ops[..n + 1][n] == ops[n];
  }

  /** A run is its first part and then the rest. */
  lemma {:induction false} RunExec(cfg: Config, ops: seq<Op>, n: nat)
    requires ValidConfig(cfg) && n <= |ops|
    ensures Run(cfg, ops).Some? && Run(cfg, ops[..n]).Some?
    ensures Exec(cfg, Run(cfg, ops[..n]).value, ops[n..]) == Run(cfg, ops)
    ensures Run(cfg, ops).value.clk == Run(cfg, ops[..n]).value.clk + TickCount(ops[n..])
    ensures Run(cfg, ops[..n]).value.log <= Run(cfg, ops).value.log
    decreases |ops| - n
  {
    hide ValidConfig, Inv, Step, Run;
    RunInv(cfg, ops);
    RunInv(cfg, ops[..n]);
    if n == |ops| {
      assert ops[..n] == ops;
    } else {
      RunNext(cfg, ops, n);
      StepClock(cfg, Run(cfg, ops[..n]).value, ops[n]);
      RunExec(cfg, ops, n + 1);
      assert ops[n..][1..] == ops[n + 1..];
    }
  }

  /** Every cycle up to the last is the cycle of some part. */
  lemma {:induction false} PartAt(cfg: Config, ops: seq<Op>, clk: nat) returns (n: nat)
    requires ValidConfig(cfg) && Run(cfg, ops).Some? && clk <= Run(cfg, ops).value.clk
    ensures n <= |ops| && Run(cfg, ops[..n]).Some? && Run(cfg, ops[..n]).value.clk == clk
    decreases |ops|
  {
    hide ValidConfig, Inv, Step;
    n := |ops|;
    assert ops[..n] == ops;
    if Run(cfg, ops).value.clk != clk {
      var before := ops[..|ops| - 1];
      RunInv(cfg, before);
      StepClock(cfg, Run(cfg, before).value, ops[|ops| - 1]);
      n := PartAt(cfg, before, clk);
      assert before[..n] == ops[..n];
    }
  }

  // ---------------------------------------------------------------- from the insertion

  lemma {:induction false} RefreshesGrow(log: seq<Issued>, log': seq<Issued>)
    requires log <= log'
    ensures |Refreshes(log)| <= |Refreshes(log')|
    ensures (exists n :: |log| <= n < |log'| && IsRefresh(log'[n].cmd.ty)) ==> |Refreshes(log)| < |Refreshes(log')|
    decreases |log'|
  {
    if log == log' {
    } else {
      assert log <= log'[..|log'| - 1];
      RefreshesGrow(log, log'[..|log'| - 1]);
    }
  }

  /** With an empty queue at the cycle of an insertion, the refresh inserted is at once in front. */
  lemma InsertedInFront(cfg: Config, s: Ctrl, m: nat)
    requires ValidConfig(cfg) && Inv(cfg, s) && s.ch.refreshQ == [] && s.clk == (m + 1) * RefreshInterval(cfg)
    ensures InFront(cfg, s, Target(cfg, m)) && IsRefresh(Target(cfg, m).ty)
  {
    hide Core, Past;
    var t := RefreshInterval(cfg);
    Arith.MulMono(1, m + 1, t);
    Arith.DivUnique(s.clk, t, m + 1, 0);
    CountAt(t, m, s.clk);
  }

  lemma CountAt(t: int, m: nat, clk: int)
    requires 0 < t && clk == (m + 1) * t
    ensures 0 < clk && (clk - 1) / t == m
  {
    Arith.MulMono(1, m + 1, t);
    assert clk - 1 == m * t + (t - 1);
    Arith.DivUnique(clk - 1, t, m, t - 1);
  }

  /** Refreshes issued and waiting, and the clock. */
  lemma CountNow(cfg: Config, ops: seq<Op>)
    requires ValidConfig(cfg)
    ensures Run(cfg, ops).Some? && Inv(cfg, Run(cfg, ops).value)
    ensures var s := Run(cfg, ops).value; |Refreshes(s.log)| + |s.ch.refreshQ| == Insertions(cfg, s.clk)
  {
    hide ValidConfig, Run, Insertions, Refreshes, Inv;
    RunInv(cfg, ops);
    RefreshesInOrder(cfg, ops);
    var s := Run(cfg, ops).value;
    assert |Refreshes(s.log) + s.ch.refreshQ| == Insertions(cfg, s.clk);
  }

  lemma Between(t: int, d: int, clk: int, m: nat, waiting: nat)
    requires 0 < t && 0 <= d <= t && 0 < clk && m + waiting == (clk - 1) / t && waiting > 0
    ensures (m + 1) * t < clk
    ensures clk < (m + 1) * t + d ==> waiting == 1
  {
    var q := (clk - 1) / t;
    Arith.Split(clk - 1, t);
    Arith.MulMono(m + 1, q, t);
    if q >= m + 2 { Arith.MulMono(m + 2, q, t); assert (m + 2) * t == (m + 1) * t + t; }
  }

  /** A refresh waits for less than `d` cycles from its insertion, and no other with it. */
  ghost predicate AtMostOne(cfg: Config, s: Ctrl, d: int)
    requires ValidConfig(cfg)
  {
    var m, t := |Refreshes(s.log)|, RefreshInterval(cfg);
    s.ch.refreshQ != [] ==> |s.ch.refreshQ| == 1 && (m + 1) * t < s.clk < (m + 1) * t + d
  }

  /** At the cycle of an insertion nothing is left of the insertions before. */
  lemma NoneLeft(cfg: Config, s: Ctrl, d: nat, m: nat)
    requires ValidConfig(cfg) && AtMostOne(cfg, s, d) && d <= RefreshInterval(cfg)
    requires s.clk == (m + 1) * RefreshInterval(cfg)
    requires |Refreshes(s.log)| + |s.ch.refreshQ| == Insertions(cfg, s.clk)
    ensures s.ch.refreshQ == [] && |Refreshes(s.log)| == m
  {
    IntervalPos(cfg);
    CountAt(RefreshInterval(cfg), m, s.clk);
    hide ValidConfig, Refreshes, RefreshInterval;
    NoneAt(RefreshInterval(cfg), d, m, |Refreshes(s.log)|, |s.ch.refreshQ|);
  }

  lemma NoneAt(t: int, d: int, m: nat, issued: nat, waiting: nat)
    requires 0 < t && d <= t && issued + waiting == m
    requires waiting > 0 ==> waiting == 1 && (m + 1) * t < (issued + 1) * t + d
    ensures waiting == 0
  {
    assert (m + 1) * t == m * t + t;
  }

  /** A refresh inserted at the end of a part of a run, when none waits, is issued in the rest. */
  lemma IssuedInRest(cfg: Config, d: int, ops: seq<Op>, n: nat, m: nat)
    requires Prompt(cfg, d) && n <= |ops| && Run(cfg, ops).Some? && Run(cfg, ops[..n]).Some?
    requires var s := Run(cfg, ops[..n]).value; s.ch.refreshQ == [] && s.clk == (m + 1) * RefreshInterval(cfg)
    requires Run(cfg, ops).value.clk >= (m + 1) * RefreshInterval(cfg) + d
    ensures |Refreshes(Run(cfg, ops).value.log)| > |Refreshes(Run(cfg, ops[..n]).value.log)|
  {
    hide Run, Inv, ValidConfig, Refreshes, RefreshInterval, Exec, InFront, Target;
    SizedNow(cfg);
    RunExec(cfg, ops, n);
    RunInv(cfg, ops[..n]);
    var s, ref := Run(cfg, ops[..n]).value, Target(cfg, m);
    InsertedInFront(cfg, s, m);
    assert ServedIn(cfg, s, ops[n..], ref);
    var log' := Run(cfg, ops).value.log;
    var i :| |s.log| <= i < |log'| && log'[i].cmd == ref;
    RefreshesGrow(s.log, log');
  }

  /** Where the bound on the wait in front is no longer than the interval between insertions, every
      refresh is issued within that bound of its insertion, and at most one ever waits. */
  lemma {:induction false} FromInsertion(cfg: Config, d: nat, ops: seq<Op>)
    requires Prompt(cfg, d) && d <= RefreshInterval(cfg)
    ensures Run(cfg, ops).Some? && AtMostOne(cfg, Run(cfg, ops).value, d)
    decreases |ops|
  {
    hide Run, Inv, ValidConfig, Refreshes, RefreshInterval, Exec, Prompt;
    PromptConfig(cfg, d);
    SizedNow(cfg);
    CountNow(cfg, ops);
    var s := Run(cfg, ops).value;
    var m, t := |Refreshes(s.log)|, RefreshInterval(cfg);
    if s.ch.refreshQ != [] {
      IntervalPos(cfg);
      CountIs(cfg, s.clk);
      Between(t, d, s.clk, m, |s.ch.refreshQ|);
      if s.clk >= (m + 1) * t + d {
        Arith.MulMono(0, m + 1, t);
        var n := PartAt(cfg, ops, (m + 1) * t);
        assert ops[..|ops|] == ops;
        FromInsertion(cfg, d, ops[..n]);
        CountNow(cfg, ops[..n]);
        NoneLeft(cfg, Run(cfg, ops[..n]).value, d, m);
        IssuedInRest(cfg, d, ops, n, m);
        assert false;
      }
    }
  }

  lemma PromptConfig(cfg: Config, d: nat)
    requires Prompt(cfg, d)
    ensures ValidConfig(cfg)
  {
  }

  lemma IntervalPos(cfg: Config)
    requires ValidConfig(cfg)
    ensures 0 < RefreshInterval(cfg)
  {
  }

  lemma CountIs(cfg: Config, clk: nat)
    requires ValidConfig(cfg) && Insertions(cfg, clk) > 0
    ensures 0 < clk && 0 < RefreshInterval(cfg) && Insertions(cfg, clk) == (clk - 1) / RefreshInterval(cfg)
  {
  }

  /** With rank refreshes or a queue per rank, and an interval no shorter than the service time: every
      refresh is issued within the service time of its insertion, and at most one ever waits. */
  lemma IssuedInTime(cfg: Config, k: nat, ops: seq<Op>)
    requires ValidConfig(cfg) && DelaysWithin(cfg, k) && ServiceTime(cfg, k) <= RefreshInterval(cfg)
    requires cfg.refreshPolicy == RankLevelStaggered || cfg.perRankQueues
    ensures Run(cfg, ops).Some? && AtMostOne(cfg, Run(cfg, ops).value, ServiceTime(cfg, k))
  {
    PromptHolds(cfg, k);
    ServicePos(cfg, k);
    hide ValidConfig, DelaysWithin, Run, Prompt, AtMostOne, ServiceTime;
    FromInsertion(cfg, ServiceTime(cfg, k), ops);
  }

  lemma ServicePos(cfg: Config, k: nat)
    requires ValidConfig(cfg)
    ensures 0 < ServiceTime(cfg, k)
  {
    Arith.MulPos(cfg.bankgroups, cfg.banksPerGroup);
    Arith.MulPos(cfg.Banks(), PrechargeDelay(cfg) + 1);
  }
}
