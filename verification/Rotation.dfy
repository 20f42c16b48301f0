/** The command queues take turns: a queue that stays open and has something to send waits for no more
    commands of other queues than there are other queues. */
module Rotation {
  import opened Common
  import opened CommandQueues
  import opened Controllers
  import opened Runs
  import opened Reference
  import Arith

  /** Queue `k` is open at the next tick and has something to send. */
  ghost predicate EagerAt(cfg: Config, s: Ctrl, k: int)
    requires ValidConfig(cfg)
  {
    cfg.Banks() != 0 && Eager(cfg, s.log, Refs(cfg, s), s.cq.queues, s.clk, k)
  }

  /** The queues served in `more`, which follows `ops`, in order. */
  ghost function ServedIn(cfg: Config, ops: seq<Op>, more: seq<Op>): seq<int>
    requires ValidConfig(cfg)
    decreases |more|
  {
    if more == [] then []
    else
      var s, rest := Run(cfg, ops), ServedIn(cfg, ops + [more[0]], more[1..]);
      if s.Some? && more[0] == Tick && Taken(cfg, s.value).Some? then [Taken(cfg, s.value).value] + rest else rest
  }

  /** Queue `k` is open and has something to send at every tick of `more`. */
  ghost predicate StaysEager(cfg: Config, ops: seq<Op>, more: seq<Op>, k: int)
    requires ValidConfig(cfg)
  {
    forall n :: 0 <= n < |more| && more[n] == Tick ==>
      Run(cfg, ops + more[..n]).Some? && EagerAt(cfg, Run(cfg, ops + more[..n]).value, k)
  }

  /** How many places queue `k` is behind queue `last`; a whole round behind itself. */
  function Behind(cfg: Config, last: int, k: int): int { if last < k then k - last else k - last + NumQueues(cfg) }

  lemma BehindIs(cfg: Config, last: int, k: int)
    requires 0 <= last < NumQueues(cfg) && 0 <= k < NumQueues(cfg)
    ensures 1 <= Behind(cfg, last, k) <= NumQueues(cfg) && After(cfg, last, Behind(cfg, last, k)) == k
  {
    Arith.Small(k, NumQueues(cfg));
    Arith.ModAdd(1, k, NumQueues(cfg));
  }

  lemma BehindLess(cfg: Config, last: int, d: nat, k: int)
    requires 0 <= last < NumQueues(cfg) && 0 <= k < NumQueues(cfg) && 1 <= d < Behind(cfg, last, k)
    ensures var i := After(cfg, last, d);
      0 <= i < NumQueues(cfg) && i != k && Behind(cfg, i, k) == Behind(cfg, last, k) - d
  {
    var n := NumQueues(cfg);
    if last + d < n { Arith.Small(last + d, n); }
      else { Arith.ModAdd(1, last + d - n, n); Arith.Small(last + d - n, n); }
  }

  /** While queue `k` is eager, a command taken from another queue is from one that `k` is behind. */
  lemma CloserTurn(cfg: Config, ops: seq<Op>, k: int)
    requires ValidConfig(cfg)
    ensures Run(cfg, ops).Some? && 0 <= LastServed(cfg, ops) < NumQueues(cfg)
    ensures var s, last := Run(cfg, ops).value, LastServed(cfg, ops);
      EagerAt(cfg, s, k) ==>
        && 0 <= k < NumQueues(cfg)
        && (Taken(cfg, s).Some? && Taken(cfg, s).value != k ==>
              Behind(cfg, Taken(cfg, s).value, k) < Behind(cfg, last, k))
  {
    hide Run, ValidConfig, Shapely, RefreshTick, TickPick, LastServed;
    RunAsked(cfg, ops);
    var s, last := Run(cfg, ops).value, LastServed(cfg, ops);
    if EagerAt(cfg, s, k) && Taken(cfg, s).Some? {
      var d := TakenInTurn(cfg, s, last, k);
      BehindIs(cfg, last, k);
      if d < Behind(cfg, last, k) { BehindLess(cfg, last, d, k); }
    }
  }

  /** The queue taken from is the first eager one after `last`. */
  lemma TakenInTurn(cfg: Config, s: Ctrl, last: int, k: int) returns (d: nat)
    requires ValidConfig(cfg) && Shapely(cfg, RefreshTick(cfg, s)) && EagerAt(cfg, s, k) && Taken(cfg, s).Some?
    requires Asked(cfg, s.log, Refs(cfg, s), s.cq.queues, s.clk, last, TickPick(cfg, s))
    ensures 0 <= last < NumQueues(cfg) && 0 <= k < NumQueues(cfg) && 1 <= d <= Behind(cfg, last, k)
    ensures Taken(cfg, s).value == After(cfg, last, d)
  {
    hide ValidConfig, Shapely, TickPick, Eager, RefreshServed, FirstOffer, After, QueueIndex, Behind, NumQueues, Refs;
    var refs, r := Refs(cfg, s), TickPick(cfg, s);
    var p;
    d, p :| Turn(cfg, s.log, refs, s.cq.queues, s.clk, last, r.cmd, d, p);
    EagerRange(cfg, s, k);
    BehindIs(cfg, last, k);
  }

  lemma EagerRange(cfg: Config, s: Ctrl, k: int)
    requires ValidConfig(cfg) && EagerAt(cfg, s, k)
    ensures 0 <= k < |s.cq.queues|
  {
    hide ValidConfig, HasOffer;
  }

  lemma {:induction false} ServedSoon(cfg: Config, ops: seq<Op>, more: seq<Op>, k: int)
    requires ValidConfig(cfg) && StaysEager(cfg, ops, more, k) && 0 <= k < NumQueues(cfg)
    ensures var n, all := Behind(cfg, LastServed(cfg, ops), k), ServedIn(cfg, ops, more);
      1 <= n <= NumQueues(cfg) && (n <= |all| ==> k in all[..n])
    decreases |more|
  {
    hide ValidConfig, Run, Taken, LastServed, EagerAt, Behind, NumQueues;
    CloserTurn(cfg, ops, k);
    var last := LastServed(cfg, ops);
    BehindIs(cfg, last, k);
    if more != [] {
      var next, rest := ops + [more[0]], more[1..];
      EagerRest(cfg, ops, more, k);
      ServedSoon(cfg, next, rest, k);
      LastNext(cfg, ops, more[0]);
      var n, all := Behind(cfg, last, k), ServedIn(cfg, ops, more);
      var n', all' := Behind(cfg, LastServed(cfg, next), k), ServedIn(cfg, next, rest);
      var s := Run(cfg, ops).value;
      if more[0] == Tick && Taken(cfg, s).Some? {
        EagerFirst(cfg, ops, more, k);
        if n <= |all| {
          if Taken(cfg, s).value == k { assert all[..n][0] == k; } else { OneMore(all[0], all', n', n, k); }
        }
      }
    }
  }

  lemma OneMore(x: int, rest: seq<int>, m: nat, n: nat, k: int)
    requires m < n <= |rest| + 1 && k in rest[..m]
    ensures k in ([x] + rest)[..n]
  {
    var i :| 0 <= i < m && rest[i] == k;
    assert ([x] + rest)[..n][i + 1] == k;
  }

  lemma EagerFirst(cfg: Config, ops: seq<Op>, more: seq<Op>, k: int)
    requires ValidConfig(cfg) && StaysEager(cfg, ops, more, k) && more != [] && more[0] == Tick
    ensures Run(cfg, ops).Some? && EagerAt(cfg, Run(cfg, ops).value, k)
  {
    assert ops + more[..0] == ops;
  }

  lemma EagerRest(cfg: Config, ops: seq<Op>, more: seq<Op>, k: int)
    requires ValidConfig(cfg) && StaysEager(cfg, ops, more, k) && more != []
    ensures StaysEager(cfg, ops + [more[0]], more[1..], k)
  {
    hide ValidConfig, EagerAt, Run;
    forall n | 0 <= n < |more[1..]| && more[1..][n] == Tick
        ensures Run(cfg, ops + [more[0]] + more[1..][..n]).Some?
          && EagerAt(cfg, Run(cfg, ops + [more[0]] + more[1..][..n]).value, k) {
      assert more[n + 1] == Tick;
      assert ops + [more[0]] + more[1..][..n] == ops + more[..n + 1];
    }
  }

  lemma LastNext(cfg: Config, ops: seq<Op>, op: Op)
    requires ValidConfig(cfg) && Run(cfg, ops).Some?
    ensures LastServed(cfg, ops + [op]) ==
      if op == Tick then Served(LastServed(cfg, ops), Taken(cfg, Run(cfg, ops).value)) else LastServed(cfg, ops)
  {
    assert (ops + [op])[..|ops|] == ops;
  }

  /** A queue that is open and has something to send at every tick of `more` is among the first queues
      served in it, as many as there are queues: none is passed over for a whole round. */
  lemma TakesTurns(cfg: Config, ops: seq<Op>, more: seq<Op>, k: int)
    requires ValidConfig(cfg) && StaysEager(cfg, ops, more, k) && 0 <= k < NumQueues(cfg)
    requires NumQueues(cfg) <= |ServedIn(cfg, ops, more)|
    ensures k in ServedIn(cfg, ops, more)[..NumQueues(cfg)]
  {
    hide ValidConfig, StaysEager, ServedIn, LastServed, Behind, NumQueues;
    ServedSoon(cfg, ops, more, k);
    var n, all := Behind(cfg, LastServed(cfg, ops), k), ServedIn(cfg, ops, more);
    assert all[..n] <= all[..NumQueues(cfg)];
  }
}
