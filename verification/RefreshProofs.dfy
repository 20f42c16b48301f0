/** The refresh generator: which refresh is inserted when, and that the refreshes are served in
    the order of their insertion. */
module RefreshProofs {
  import opened Common
  import opened Controllers
  import opened Trace
  import Arith

  /** Insertions made before cycle `clk`: the k-th (from 0) happens at cycle (k + 1) * interval. */
  function Insertions(cfg: Config, clk: nat): nat
    requires ValidConfig(cfg)
  {
    if clk == 0 then 0 else Arith.QuotNonNeg(clk - 1, RefreshInterval(cfg)); (clk - 1) / RefreshInterval(cfg)
  }

  /** The counters after `k` insertions: bankgroup runs fastest, then bank, then rank. */
  function Counters(cfg: Config, k: nat, clk: nat): RefreshGen
    requires Sized(cfg)
  {
    if cfg.refreshPolicy == BankLevelStaggered then
      RefreshGen(clk, k / cfg.bankgroups / cfg.banksPerGroup % cfg.ranks, k % cfg.bankgroups,
                 k / cfg.bankgroups % cfg.banksPerGroup)
    else RefreshGen(clk, k % cfg.ranks, 0, 0)
  }

  /** The k-th refresh inserted. */
  function Target(cfg: Config, k: nat): Command
    requires Sized(cfg)
  {
    RefreshCommand(cfg, Counters(cfg, k, 0))
  }

  function Targets(cfg: Config, n: nat): seq<Command>
    requires Sized(cfg)
  {
    seq(n, k requires 0 <= k => Target(cfg, k))
  }

  function Refreshes(log: seq<Issued>): seq<Command> {
    if log == [] then []
    else Refreshes(log[..|log| - 1]) + if IsRefresh(log[|log| - 1].cmd.ty) then [log[|log| - 1].cmd] else []
  }

  /** The refreshes issued so far and those still waiting are, together and in order, all the
      refreshes inserted so far. */
  ghost predicate InOrder(cfg: Config, s: Ctrl)
    requires ValidConfig(cfg)
  {
    var n := Insertions(cfg, s.ref.clk);
    s.ref == Counters(cfg, n, s.ref.clk) && Refreshes(s.log) + s.ch.refreshQ == Targets(cfg, n)
  }

  lemma CountersStep(cfg: Config, k: nat, clk: nat)
    requires Sized(cfg)
    ensures IterateNext(cfg, Counters(cfg, k, clk)).(clk := clk + 1) == Counters(cfg, k + 1, clk + 1)
  {
    Arith.CountStep(k, cfg.ranks);
    Arith.CountStep(k, cfg.bankgroups);
    Arith.CountStep(k / cfg.bankgroups, cfg.banksPerGroup);
    Arith.CountStep(k / cfg.bankgroups / cfg.banksPerGroup, cfg.ranks);
  }

  lemma InsertionsStep(cfg: Config, clk: nat)
    requires ValidConfig(cfg)
    ensures Insertions(cfg, clk + 1) == Insertions(cfg, clk) + if clk % RefreshInterval(cfg) == 0 && clk > 0 then 1
      else 0
  {
    if clk > 0 { Arith.CountStep(clk - 1, RefreshInterval(cfg)); } else { Arith.Small(0, RefreshInterval(cfg)); }
  }

  /** An insertion is the next refresh in the fixed rotation, at its fixed cycle. */
  lemma RefreshTickInOrder(cfg: Config, s: Ctrl)
    requires ValidConfig(cfg) && InOrder(cfg, s)
    ensures InOrder(cfg, RefreshTick(cfg, s))
  {
    var clk := s.ref.clk;
    var n := Insertions(cfg, clk);
    InsertionsStep(cfg, clk);
    if Inserts(cfg, s.ref) {
      CountersStep(cfg, n, clk);
      assert Targets(cfg, n + 1) == Targets(cfg, n) + [Target(cfg, n)];
      assert RefreshCommand(cfg, s.ref) == Target(cfg, n);
    }
  }

  /** Which insertion happens when: the k-th at cycle (k + 1) * interval and at no other. */
  lemma InsertionTime(cfg: Config, k: nat, clk: nat)
    requires ValidConfig(cfg)
    ensures clk == (k + 1) * RefreshInterval(cfg) <==> Insertions(cfg, clk) == k && Insertions(cfg, clk + 1) == k + 1
  {
    var m := RefreshInterval(cfg);
    InsertionsStep(cfg, clk);
    if clk == (k + 1) * m {
      Arith.MulPos(k + 1, m);
      Arith.DivUnique(clk, m, k + 1, 0);
      Arith.DivUnique(clk - 1, m, k, m - 1);
    }
    if Insertions(cfg, clk) == k && Insertions(cfg, clk + 1) == k + 1 { Arith.Split(clk, m); }
  }

  /** Every residue occurs exactly once among `n` consecutive numbers. */
  lemma OncePerCycle(first: nat, n: int, r: int) returns (k: nat)
    requires 0 <= r < n
    ensures first <= k < first + n && k % n == r
    ensures forall k' :: first <= k' < first + n && k' % n == r ==> k' == k
  {
    Arith.Split(first, n);
    var base := first - first % n;
    k := if first % n <= r then base + r else base + n + r;
    Arith.DivUnique(k, n, if first % n <= r then first / n else first / n + 1, r);
    forall k' | first <= k' < first + n && k' % n == r ensures k' == k {
      Arith.Split(k', n);
      Arith.Split(k, n);
      assert k' - k == (k' / n - k / n) * n;
      if k' / n > k / n { Arith.MulMono(1, k' / n - k / n, n); }
      if k' / n < k / n { Arith.MulMono(k' / n - k / n, -1, n); }
    }
  }

  /** How many refreshes make a full rotation. */
  function Cycle(cfg: Config): int {
    if cfg.refreshPolicy == BankLevelStaggered then cfg.ranks * cfg.banksPerGroup * cfg.bankgroups else cfg.ranks
  }

  /** Place of a bank in the rotation. */
  function Place(cfg: Config, b: BankId): int {
    if cfg.refreshPolicy == BankLevelStaggered then (b.rank * cfg.banksPerGroup + b.bank) * cfg.bankgroups + b.bankgroup
    else b.rank
  }

  lemma PlaceOf(cfg: Config, k: nat, b: BankId)
    requires Sized(cfg) && ValidBank(cfg, b)
    ensures 0 <= Place(cfg, b) < Cycle(cfg)
    ensures Covers(cfg, Target(cfg, k), b) <==> k % Cycle(cfg) == Place(cfg, b)
  {
    if cfg.refreshPolicy == BankLevelStaggered {
      var g, n, r := cfg.bankgroups, cfg.banksPerGroup, cfg.ranks;
      var c := k / g / n / r;
      Arith.Pack(b.rank, b.bank, r, n);
      Arith.Pack(b.rank * n + b.bank, b.bankgroup, r * n, g);
      Arith.Split(k, g); Arith.Split(k / g, n); Arith.Split(k / g / n, r);
      Arith.Pack(k / g / n % r, k / g % n, r, n);
      Arith.Pack(k / g / n % r * n + k / g % n, k % g, r * n, g);
      var x := (k / g / n % r * n + k / g % n) * g + k % g;
      Unfold(c, k / g / n % r, k / g % n, k % g, r, n, g);
      Arith.DivUnique(k, r * n * g, c, x);
    }
  }

  lemma Unfold(c: int, rank: int, bank: int, bg: int, r: int, n: int, g: int)
    ensures ((c * r + rank) * n + bank) * g + bg == c * (r * n * g) + ((rank * n + bank) * g + bg)
  {
    assert (c * r + rank) * n == c * (r * n) + rank * n;
    assert (c * (r * n) + rank * n + bank) * g == c * (r * n) * g + (rank * n + bank) * g;
    Arith.Assoc(c, r * n, g);
  }

  /** Any full rotation of consecutive refreshes covers every bank exactly once: rank by rank, or
      bank by bank. */
  lemma FullCoverage(cfg: Config, first: nat, b: BankId) returns (k: nat)
    requires Sized(cfg) && ValidBank(cfg, b)
    ensures first <= k < first + Cycle(cfg) && Covers(cfg, Target(cfg, k), b)
    ensures forall k' :: first <= k' < first + Cycle(cfg) && Covers(cfg, Target(cfg, k'), b) ==> k' == k
  {
    PlaceOf(cfg, 0, b);
    k := OncePerCycle(first, Cycle(cfg), Place(cfg, b));
    PlaceOf(cfg, k, b);
    forall k': nat | first <= k' < first + Cycle(cfg) && Covers(cfg, Target(cfg, k'), b) ensures k' == k {
      PlaceOf(cfg, k', b);
    }
  }
}
