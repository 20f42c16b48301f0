/** The choice of a command, stated over the trace. The controller keeps timers, row hits, activation
    windows and a queue index and moves them with every command; this module says from the commands
    issued so far, the data sheet and the queues alone what it has to send out next, and proves that it
    always does. */
module Reference {
  import opened Common
  import opened Timing
  import opened Banks
  import opened Channels
  import opened ChannelProofs
  import opened CommandQueues
  import opened QueueProofs
  import opened Controllers
  import opened ControllerProofs
  import opened RefreshProofs
  import opened Runs
  import opened BankHistory
  import opened Progress
  import opened Trace
  import opened Jedec
  import opened Options
  import AddressMap
  import Arith

  // ---------------------------------------------------------------- one bank

  /** Every minimum of the data sheet lets a command of type `ty` go to bank `b` at `clk`. */
  ghost predicate Free(cfg: Config, log: seq<Issued>, ty: CommandType, b: BankId, clk: int) {
    forall i :: 0 <= i < |log| ==>
      match Minimum(cfg, log[i].cmd, ty, b) case Some(d) => log[i].clk + d <= clk case None => true
  }

  /** With one more entry at `clk` there are still at most `n` in any `span`. */
  predicate Room(times: seq<int>, n: nat, span: int, clk: int)
    requires 0 < n
  {
    |times| < n || times[|times| - n] + span <= clk
  }

  predicate MayActivate(cfg: Config, log: seq<Issued>, rank: int, clk: int) {
    && Room(Activations(log, rank), 4, cfg.tFAW, clk)
    && (cfg.protocol in {GDDR5, GDDR5X, GDDR6} ==> Room(Activations(log, rank), 32, cfg.t32AW, clk))
  }

  /** The command that brings a request to its bank forward. */
  function Needs(cfg: Config, log: seq<Issued>, req: Command): CommandType {
    match RowAfter(cfg, log, BankOf(req.addr))
    case None => if IsReadWrite(req.ty) then Activate else req.ty
    case Some(row) => if IsReadWrite(req.ty) && row == req.addr.row then req.ty else Precharge
  }

  ghost predicate May(cfg: Config, log: seq<Issued>, req: Command, clk: int) {
    var ty := Needs(cfg, log, req);
    && Free(cfg, log, ty, BankOf(req.addr), clk)
    && (ty == Activate ==> MayActivate(cfg, log, req.addr.rank, clk))
  }

  // ---------------------------------------------------------------- one queue

  predicate Wants(c: Command, b: BankId, row: Option<int>) { BankOf(c.addr) == b && row == Some(c.addr.row) }

  /** Entry `p` may have its next command now. A row is closed only for the oldest request to its bank,
      and while a request in the queue wants it only after four accesses. A write does not overtake an
      older read of its column. */
  ghost predicate Offered(cfg: Config, log: seq<Issued>, queue: seq<Command>, p: int, clk: int)
    requires 0 <= p < |queue|
  {
    var req := queue[p];
    var b := BankOf(req.addr);
    var row := RowAfter(cfg, log, b);
    && May(cfg, log, req, clk)
    && (Needs(cfg, log, req) == Precharge ==>
          && (forall k :: 0 <= k < p ==> BankOf(queue[k].addr) != b)
          && ((exists k :: p <= k < |queue| && Wants(queue[k], b, row)) ==> HitsAfter(cfg, log, b) >= 4))
    && (IsWrite(Needs(cfg, log, req)) ==> forall k :: 0 <= k < p ==>
          !(IsRead(queue[k].ty) && Wants(queue[k], b, row) && queue[k].addr.column == req.addr.column))
  }

  ghost predicate HasOffer(cfg: Config, log: seq<Issued>, queue: seq<Command>, clk: int) {
    exists p :: 0 <= p < |queue| && Offered(cfg, log, queue, p, clk)
  }

  /** `cmd` is what the oldest entry with an offer gets. */
  ghost predicate FirstOffer(cfg: Config, log: seq<Issued>, queue: seq<Command>, clk: int, cmd: Command, p: int) {
    && 0 <= p < |queue| && Offered(cfg, log, queue, p, clk)
    && (forall k :: 0 <= k < p ==> !Offered(cfg, log, queue, k, clk))
    && cmd == Command(Needs(cfg, log, queue[p]), queue[p].addr, queue[p].hexAddr)
  }

  // ---------------------------------------------------------------- the refresh in front

  /** Bank `b` is open and may be closed. */
  ghost predicate Closable(cfg: Config, log: seq<Issued>, b: BankId, clk: int) {
    RowAfter(cfg, log, b).Some? && Free(cfg, log, Precharge, b, clk)
  }

  /** `cmd` serves refresh `ref` of a whole rank: the first bank that can be closed is; the refresh goes
      out when all its banks are closed and free. */
  ghost predicate ServesRank(cfg: Config, log: seq<Issued>, ref: Command, clk: int, cmd: Command)
    requires Sized(cfg) && 0 <= ref.addr.rank < cfg.ranks
  {
    var ids := RankBanks(cfg, ref.addr.rank);
    || (exists n ::
          && 0 <= n < |ids| && Closable(cfg, log, ids[n], clk)
          && (forall k :: 0 <= k < n ==> !Closable(cfg, log, ids[k], clk))
          && cmd == Command(Precharge, Address(-1, ids[n].rank, ids[n].bankgroup, ids[n].bank, -1, -1), ref.hexAddr))
    || (cmd == ref
        && forall b :: Covers(cfg, ref, b) ==> RowAfter(cfg, log, b) == None && Free(cfg, log, Refresh, b, clk))
  }

  ghost predicate Serves(cfg: Config, log: seq<Issued>, ref: Command, clk: int, cmd: Command)
    requires Sized(cfg) && Addressed(cfg, ref)
  {
    if IsRankCommand(ref.ty) then ServesRank(cfg, log, ref, clk, cmd)
    else May(cfg, log, ref, clk) && cmd == Command(Needs(cfg, log, ref), ref.addr, ref.hexAddr)
  }

  /** The refresh in front, if there is one, can have a command now. */
  ghost predicate RefreshServed(cfg: Config, log: seq<Issued>, refs: seq<Command>, clk: int)
    requires Sized(cfg) && (refs != [] ==> Addressed(cfg, refs[0]))
  {
    refs != [] && exists cmd :: Serves(cfg, log, refs[0], clk, cmd)
  }

  // ---------------------------------------------------------------- all queues

  /** The queue `d` places behind queue `last`. */
  function After(cfg: Config, last: int, d: nat): int
    requires 0 < NumQueues(cfg)
  {
    (last + d) % NumQueues(cfg)
  }

  /** Queue `k` is open, not shut by the refresh in front, and has something to send. */
  ghost predicate Eager(cfg: Config, log: seq<Issued>, refs: seq<Command>, queues: seq<seq<Command>>, clk: int, k: int)
    requires Sized(cfg) && cfg.Banks() != 0
  {
    && 0 <= k < |queues| && (refs != [] ==> k !in RefIndices(cfg, refs[0]))
    && HasOffer(cfg, log, queues[k], clk)
  }

  /** What has to go out at `clk`: a command for the refresh in front; if it can have none, the first
      offer of the first eager queue after the one served last; if there is none, nothing. */
  ghost predicate Due(cfg: Config, log: seq<Issued>, refs: seq<Command>, queues: seq<seq<Command>>, clk: int, last: int,
                      r: Pick)
    requires Sized(cfg) && cfg.Banks() != 0 && 0 < NumQueues(cfg) == |queues|
    requires (refs != [] ==> Addressed(cfg, refs[0]))
  {
    if RefreshServed(cfg, log, refs, clk) then r.Issue? && Serves(cfg, log, refs[0], clk, r.cmd)
    else if exists k :: Eager(cfg, log, refs, queues, clk, k) then
      r.Issue? && exists d: nat, p :: Turn(cfg, log, refs, queues, clk, last, r.cmd, d, p)
    else r == Wait
  }

  /** `cmd` is the first offer, of entry `p`, of the first eager queue after `last`, `d` places behind. */
  ghost predicate Turn(cfg: Config, log: seq<Issued>, refs: seq<Command>, queues: seq<seq<Command>>, clk: int,
                       last: int,
                       cmd: Command, d: nat, p: int)
    requires Sized(cfg) && cfg.Banks() != 0 && 0 < NumQueues(cfg) == |queues|
  {
    && InTurn(cfg, log, refs, queues, clk, last, d) && FirstOffer(cfg, log, queues[After(cfg, last, d)], clk, cmd, p)
    && QueueIndex(cfg, cmd.addr) == After(cfg, last, d)
  }

  /** The first eager queue after `last` is `d` places behind it. */
  ghost predicate InTurn(cfg: Config, log: seq<Issued>, refs: seq<Command>, queues: seq<seq<Command>>, clk: int,
                         last: int, d: nat)
    requires Sized(cfg) && cfg.Banks() != 0 && 0 < NumQueues(cfg)
  {
    && 1 <= d <= NumQueues(cfg) && Eager(cfg, log, refs, queues, clk, After(cfg, last, d))
    && forall e :: 1 <= e < d ==> !Eager(cfg, log, refs, queues, clk, After(cfg, last, e))
  }

  // ---------------------------------------------------------------- the channel agrees with the trace exactly

  /** Rows, timers, windows and hits say of every bank what the trace says, and no more. */
  ghost predicate Exact(cfg: Config, ch: Channel, log: seq<Issued>) {
    && Tracks(cfg, ch, log) && HitsMatch(cfg, ch, log)
    && forall b :: ValidBank(cfg, b) ==> JustifiedBank(cfg, ch.banks[b], b, log)
  }

  lemma TimerIff(cfg: Config, ch: Channel, log: seq<Issued>, ty: CommandType, b: BankId, clk: nat)
    requires Exact(cfg, ch, log) && ValidBank(cfg, b)
    ensures ch.banks[b].timing[ty] <= clk <==> Free(cfg, log, ty, b, clk)
  {
    BankTimers(cfg, ch, log, b);
    hide Exact, Consulted, Minimum, JustifiedBank;
    if ch.banks[b].timing[ty] <= clk {
      TimerPassed(cfg, ch.banks[b], log, ty, b, clk);
    } else {
      TimerAhead(cfg, ch.banks[b], log, ty, b, clk);
    }
  }

  /** The timers of one bank stand at least where the trace puts them, and at no other place. */
  ghost predicate TimersExact(cfg: Config, bank: BankState, log: seq<Issued>, b: BankId) {
    && JustifiedBank(cfg, bank, b, log)
    && forall i, e :: 0 <= i < |log| && e in Consulted(cfg, log[i].cmd, b) ==> log[i].clk + e.delay <= bank.timing[e.ty]
  }

  lemma BankTimers(cfg: Config, ch: Channel, log: seq<Issued>, b: BankId)
    requires Exact(cfg, ch, log) && ValidBank(cfg, b)
    ensures Shaped(cfg, ch) && TimersExact(cfg, ch.banks[b], log, b)
  {
    hide RowsMatch, WindowsMatch, TraceOk, JustifiedBank, HitsMatch, Consulted;
  }

  lemma TimerPassed(cfg: Config, bank: BankState, log: seq<Issued>, ty: CommandType, b: BankId, clk: nat)
    requires TimersExact(cfg, bank, log, b) && bank.timing[ty] <= clk
    ensures Free(cfg, log, ty, b, clk)
  {
    hide Consulted, Minimum, JustifiedBank;
    forall i | 0 <= i < |log|
        ensures match Minimum(cfg, log[i].cmd, ty, b) case Some(d) => log[i].clk + d <= clk case None => true {
      match Minimum(cfg, log[i].cmd, ty, b)
      case Some(d) =>
        TablesAreSheet(cfg, log[i].cmd, ty, b, d);
        var e := Entry(ty, d);
        assert e in Consulted(cfg, log[i].cmd, b);
      case None =>
    }
  }

  lemma TimerAhead(cfg: Config, bank: BankState, log: seq<Issued>, ty: CommandType, b: BankId, clk: nat)
    requires TimersExact(cfg, bank, log, b) && clk < bank.timing[ty]
    ensures !Free(cfg, log, ty, b, clk)
  {
    hide Consulted, Minimum;
    var time := bank.timing[ty];
    assert PutBy(cfg, time, ty, b, log);
    var i :| 0 <= i < |log| && Entry(ty, time - log[i].clk) in Consulted(cfg, log[i].cmd, b);
    TablesAreSheet(cfg, log[i].cmd, ty, b, time - log[i].clk);
  }

  lemma WindowIff(window: seq<int>, acts: seq<int>, n: nat, span: int, clk: int)
    requires 0 < n && WindowMatch(window, acts, n, span) && forall i :: 0 <= i < |acts| ==> acts[i] < clk
    ensures WindowOk(window, clk, n) <==> Room(acts, n, span, clk)
  {
    if |window| == n {
      assert window[0] == acts[|acts| - n] + span;
    } else if |acts| >= n {
      assert acts[|acts| - n] + span <= acts[|acts| - 1];
    }
  }

  lemma ActivateIff(cfg: Config, ch: Channel, log: seq<Issued>, rank: int, clk: nat)
    requires Exact(cfg, ch, log) && Past(log, clk) && 0 <= rank < cfg.ranks
    ensures ActivationWindowOk(cfg, ch, rank, clk) <==> MayActivate(cfg, log, rank, clk)
  {
    assert WindowsMatch(cfg, ch, log) && Shaped(cfg, ch);
    hide Exact, Room, WindowOk;
    ActivationsBelow(log, rank, clk);
    WindowIff(ch.fourAw[rank], Activations(log, rank), 4, cfg.tFAW, clk);
    if cfg.IsGDDR() { WindowIff(ch.thirtyTwoAw[rank], Activations(log, rank), 32, cfg.t32AW, clk); }
  }

  lemma RowIs(cfg: Config, ch: Channel, log: seq<Issued>, b: BankId)
    requires Exact(cfg, ch, log) && ValidBank(cfg, b)
    ensures Shaped(cfg, ch) && RowMatch(cfg, ch.banks[b], log, b) && HitMatch(cfg, ch.banks[b], log, b)
  {
    hide RowMatch, HitMatch, TimersMatch, WindowsMatch, TraceOk, JustifiedBank;
  }

  lemma RequiredIs(cfg: Config, bank: BankState, log: seq<Issued>, req: Command)
    requires RowMatch(cfg, bank, log, BankOf(req.addr)) && Request(cfg, req) && !IsRankCommand(req.ty)
    ensures Required(bank, req.ty, req.addr.row) == Some(Needs(cfg, log, req))
  {
  }

  /** A request to a bank gets a command exactly when the trace and the data sheet allow it. */
  lemma ReadyIs(cfg: Config, ch: Channel, log: seq<Issued>, req: Command, clk: nat)
    requires Sized(cfg) && Exact(cfg, ch, log) && Past(log, clk) && Request(cfg, req) && !IsRankCommand(req.ty)
    ensures Shaped(cfg, ch)
    ensures ReadyCommand(cfg, ch, req, clk) ==
      if May(cfg, log, req, clk) then Issue(Command(Needs(cfg, log, req), req.addr, req.hexAddr)) else Wait
  {
    hide Exact, Free, ActivationWindowOk, MayActivate, HitMatch, RowMatch, Required, Needs, Past;
    var b := BankOf(req.addr);
    RowIs(cfg, ch, log, b);
    RequiredIs(cfg, ch.banks[b], log, req);
    TimerIff(cfg, ch, log, Needs(cfg, log, req), b, clk);
    ActivateIff(cfg, ch, log, b.rank, clk);
  }

  // ---------------------------------------------------------------- one queue

  /** What holds of a queue of the controller: accesses to the banks of one rank. */
  ghost predicate OneRanked(cfg: Config, queue: seq<Command>) {
    && AllInBanks(cfg, queue) && AllReadWrite(queue)
    && forall j, k :: 0 <= j < |queue| && 0 <= k < |queue| ==> queue[j].addr.rank == queue[k].addr.rank
  }

  lemma ArbitrateIs(cfg: Config, ch: Channel, log: seq<Issued>, queue: seq<Command>, p: int)
    requires Exact(cfg, ch, log) && OneRanked(cfg, queue) && 0 <= p < |queue|
    requires RowAfter(cfg, log, BankOf(queue[p].addr)).Some?
    ensures BankOf(queue[p].addr) in ch.banks
    ensures var b := BankOf(queue[p].addr);
      ArbitratePrecharge(ch, queue, p) <==>
        && (forall k :: 0 <= k < p ==> BankOf(queue[k].addr) != b)
        && ((exists k :: p <= k < |queue| && Wants(queue[k], b, RowAfter(cfg, log, b))) ==>
              HitsAfter(cfg, log, b) >= 4)
  {
    var b := BankOf(queue[p].addr);
    RowIs(cfg, ch, log, b);
    hide Exact, RowAfter, HitsAfter, AllReadWrite;
    var row := RowAfter(cfg, log, b);
    forall k | p <= k < |queue|
        ensures Wants(queue[k], b, row) <==>
          SameBankAs(queue[k], queue[p]) && queue[k].addr.row == ch.banks[b].openRow { }
  }

  lemma DependsIs(cfg: Config, queue: seq<Command>, p: int, row: Option<int>)
    requires OneRanked(cfg, queue) && 0 <= p < |queue| && row == Some(queue[p].addr.row)
    ensures HasRWDependency(queue, p) <==> exists k ::
      && 0 <= k < p && IsRead(queue[k].ty) && Wants(queue[k], BankOf(queue[p].addr), row)
      && queue[k].addr.column == queue[p].addr.column
  {
    forall k | 0 <= k < p
        ensures SameLine(queue[k], queue[p]) <==>
          (IsRead(queue[k].ty) && Wants(queue[k], BankOf(queue[p].addr), row)
           && queue[k].addr.column == queue[p].addr.column) { }
  }

  lemma EntryIs(cfg: Config, log: seq<Issued>, queue: seq<Command>, p: int)
    requires OneRanked(cfg, queue) && 0 <= p < |queue|
    ensures AllInBanks(cfg, queue) && Request(cfg, queue[p]) && !IsRankCommand(queue[p].ty)
    ensures var row, ty := RowAfter(cfg, log, BankOf(queue[p].addr)), Needs(cfg, log, queue[p]);
      (ty == Precharge ==> row.Some?) && (IsWrite(ty) ==> row == Some(queue[p].addr.row))
  {
    assert IsReadWrite(queue[p].ty);
  }

  lemma CandidateIs(cfg: Config, ch: Channel, log: seq<Issued>, queue: seq<Command>, p: int, clk: nat)
    requires Sized(cfg) && Exact(cfg, ch, log) && Past(log, clk) && OneRanked(cfg, queue) && 0 <= p < |queue|
    ensures Shaped(cfg, ch)
    ensures Candidate(cfg, ch, queue, p, clk) ==
      if Offered(cfg, log, queue, p,
                 clk) then Issue(Command(Needs(cfg, log, queue[p]), queue[p].addr, queue[p].hexAddr))
      else Wait
  {
    hide ReadyCommand, May, Exact, RowAfter, ArbitratePrecharge, HasRWDependency, HitsAfter, Past, Needs, OneRanked,
         Wants;
    var req := queue[p];
    EntryIs(cfg, log, queue, p);
    ReadyIs(cfg, ch, log, req, clk);
    if Needs(cfg, log, req) == Precharge {
      ArbitrateIs(cfg, ch, log, queue, p);
    } else if IsWrite(Needs(cfg, log, req)) {
      DependsIs(cfg, queue, p, RowAfter(cfg, log, BankOf(req.addr)));
    }
  }

  lemma {:induction false} FirstReadyIs(cfg: Config, ch: Channel, log: seq<Issued>, queue: seq<Command>, clk: nat,
                                        i: nat)
    returns (p: int)
    requires Sized(cfg) && Exact(cfg, ch, log) && Past(log, clk) && OneRanked(cfg, queue) && i <= |queue|
    requires forall k :: 0 <= k < i ==> !Offered(cfg, log, queue, k, clk)
    ensures Shaped(cfg, ch)
    ensures match FirstReady(cfg, ch, queue, clk, i)
      case Abort => false
      case Wait => !HasOffer(cfg, log, queue, clk)
      case Issue(cmd) => HasOffer(cfg, log, queue, clk) && FirstOffer(cfg, log, queue, clk, cmd, p)
    decreases |queue| - i
  {
    hide Exact, Offered, Past, Needs;
    p := i;
    if i < |queue| {
      CandidateIs(cfg, ch, log, queue, i, clk);
      hide Candidate, OneRanked;
      if !Offered(cfg, log, queue, i, clk) { p := FirstReadyIs(cfg, ch, log, queue, clk, i + 1); }
    } else {
      ShapedExact(cfg, ch, log);
    }
  }

  lemma ShapedExact(cfg: Config, ch: Channel, log: seq<Issued>)
    requires Exact(cfg, ch, log)
    ensures Shaped(cfg, ch)
  {
  }

  // ---------------------------------------------------------------- the refresh in front

  /** What a bank answers to the refresh of its rank. */
  lemma BankAnswers(cfg: Config, ch: Channel, log: seq<Issued>, ref: Command, b: BankId, clk: nat)
    requires Exact(cfg, ch, log) && ref.ty == Refresh && ValidBank(cfg, b)
    ensures Shaped(cfg, ch)
    ensures GetReadyCommand(ch.banks[b], ref, clk) ==
      if RowAfter(cfg, log, b).Some? then
        (if Free(cfg, log, Precharge, b, clk) then Issue(Command(Precharge, ref.addr, ref.hexAddr)) else Wait)
      else if Free(cfg, log, Refresh, b, clk) then Issue(ref) else Wait
  {
    hide Exact, Free, RowAfter, HitMatch;
    RowIs(cfg, ch, log, b);
    TimerIff(cfg, ch, log, Precharge, b, clk);
    TimerIff(cfg, ch, log, Refresh, b, clk);
  }

  /** The scan of a rank stops at a bank exactly when it can be closed. */
  lemma BankStops(cfg: Config, ch: Channel, log: seq<Issued>, ref: Command, b: BankId, clk: nat)
    requires Exact(cfg, ch, log) && ref.ty == Refresh && ValidBank(cfg, b)
    ensures Shaped(cfg, ch)
    ensures var r := GetReadyCommand(ch.banks[b], ref, clk);
      && (Stops(ch.banks[b], ref, clk) <==> Closable(cfg, log, b, clk))
      && (Closable(cfg, log, b, clk) ==> r == Issue(Command(Precharge, ref.addr, ref.hexAddr)))
      && (r.Issue? && !Closable(cfg, log, b, clk) <==>
            RowAfter(cfg, log, b) == None && Free(cfg, log, Refresh, b, clk))
  {
    hide Exact, Free, RowAfter, GetReadyCommand;
    BankAnswers(cfg, ch, log, ref, b, clk);
  }

  lemma RankIs(cfg: Config, ch: Channel, log: seq<Issued>, ref: Command, clk: nat)
    requires Sized(cfg) && Exact(cfg, ch, log) && ref.ty == Refresh && 0 <= ref.addr.rank < cfg.ranks
    ensures Shaped(cfg, ch)
    ensures match RankReady(cfg, ch, ref, clk)
      case Abort => false
      case Wait => forall cmd :: !ServesRank(cfg, log, ref, clk, cmd)
      case Issue(cmd) => ServesRank(cfg, log, ref, clk, cmd)
  {
    ShapedExact(cfg, ch, log);
    hide Exact, Free, RowAfter, GetReadyCommand, RankBanks, Closable, Stops, Shaped;
    var ids := RankBanks(cfg, ref.addr.rank);
    forall i | 0 <= i < |ids|
        ensures var r := GetReadyCommand(ch.banks[ids[i]], ref, clk);
          && (Stops(ch.banks[ids[i]], ref, clk) <==> Closable(cfg, log, ids[i], clk))
          && (Closable(cfg, log, ids[i], clk) ==> r == Issue(Command(Precharge, ref.addr, ref.hexAddr)))
          && (r.Issue? && !Closable(cfg, log, ids[i], clk) <==>
                RowAfter(cfg, log, ids[i]) == None && Free(cfg, log, Refresh, ids[i], clk)) {
      BankStops(cfg, ch, log, ref, ids[i], clk);
    }
    var n := FirstStop(ch, ids, ref, clk);
    hide FirstStop;
    if n == |ids| { NoneCloses(cfg, ch, log, ref, clk, ids); }
  }

  /** No bank can be closed: the refresh goes out if and only if all of them are ready for it. */
  lemma NoneCloses(cfg: Config, ch: Channel, log: seq<Issued>, ref: Command, clk: nat, ids: seq<BankId>)
    requires Sized(cfg) && Shaped(cfg, ch) && ref.ty == Refresh && 0 <= ref.addr.rank < cfg.ranks
    requires ids == RankBanks(cfg, ref.addr.rank)
    requires forall i :: 0 <= i < |ids| ==> ids[i] in ch.banks && !Closable(cfg, log, ids[i], clk)
    requires forall i :: 0 <= i < |ids| ==>
        (GetReadyCommand(ch.banks[ids[i]], ref, clk).Issue? <==>
          RowAfter(cfg, log, ids[i]) == None && Free(cfg, log, Refresh, ids[i], clk))
    ensures (forall i :: 0 <= i < |ids| ==> GetReadyCommand(ch.banks[ids[i]], ref, clk).Issue?) <==>
        ServesRank(cfg, log, ref, clk, ref)
    ensures forall cmd :: ServesRank(cfg, log, ref, clk, cmd) ==> cmd == ref
  {
    hide Free, RowAfter, GetReadyCommand, RankBanks, Closable;
    forall b ensures Covers(cfg, ref, b) <==> b in ids { }
    if forall i :: 0 <= i < |ids| ==> GetReadyCommand(ch.banks[ids[i]], ref, clk).Issue? {
      forall b | Covers(cfg, ref, b) ensures RowAfter(cfg, log, b) == None && Free(cfg, log, Refresh, b, clk) {
        var i :| 0 <= i < |ids| && ids[i] == b;
      }
    }
    forall i | 0 <= i < |ids| ensures Covers(cfg, ref, ids[i]) { assert ids[i] in ids; }
  }

  lemma RefreshIs(cfg: Config, ch: Channel, log: seq<Issued>, ref: Command, clk: nat)
    requires Sized(cfg) && Exact(cfg, ch, log) && Past(log, clk) && Request(cfg, ref) && IsRefresh(ref.ty)
    ensures Shaped(cfg, ch)
    ensures match ReadyCommand(cfg, ch, ref, clk)
      case Abort => false
      case Wait => forall cmd :: !Serves(cfg, log, ref, clk, cmd)
      case Issue(cmd) => Serves(cfg, log, ref, clk, cmd)
  {
    hide Exact, May, RankReady, ServesRank, Past, Needs;
    if ref.ty == Refresh { RankIs(cfg, ch, log, ref, clk); } else { ReadyIs(cfg, ch, log, ref, clk); }
  }

  // ---------------------------------------------------------------- the queues in turn

  lemma AfterOne(cfg: Config, last: int)
    requires 0 <= last < NumQueues(cfg)
    ensures NextIndex(cfg, last) == After(cfg, last, 1)
    ensures After(cfg, last, NumQueues(cfg)) == last == After(cfg, last, 0)
  {
    var n := NumQueues(cfg);
    Arith.Small(last, n);
    Arith.ModAdd(1, last, n);
    if last + 1 < n { Arith.Small(last + 1, n); } else { Arith.ModAdd(1, 0, n); Arith.Small(0, n); }
  }

  lemma AfterNext(cfg: Config, last: int, d: nat)
    requires 0 <= last < NumQueues(cfg)
    ensures After(cfg, After(cfg, last, 1), d) == After(cfg, last, d + 1)
  {
    var n := NumQueues(cfg);
    var a := (last + 1) / n;
    Arith.Split(last + 1, n);
    Arith.ModAdd(a, After(cfg, last, 1) + d, n);
    assert a * n + (After(cfg, last, 1) + d) == last + (d + 1);
  }

  lemma AfterRange(cfg: Config, last: int, d: nat)
    requires 0 <= last < NumQueues(cfg)
    ensures 0 <= After(cfg, last, d) < NumQueues(cfg)
  {
  }

  /** Every queue comes after `last`, within one round. */
  lemma AfterAll(cfg: Config, last: int, k: int) returns (d: nat)
    requires 0 <= last < NumQueues(cfg) && 0 <= k < NumQueues(cfg)
    ensures 1 <= d <= NumQueues(cfg) && After(cfg, last, d) == k
  {
    var n := NumQueues(cfg);
    if last < k {
      d := k - last;
      Arith.Small(k, n);
    } else {
      d := k - last + n;
      Arith.ModAdd(1, k, n);
      Arith.Small(k, n);
    }
  }

  /** Queue `k` of `q` is open and has something to send. */
  ghost predicate Open(cfg: Config, log: seq<Issued>, q: CmdQueue, k: int) {
    0 <= k < |q.queues| && !Shut(q, k) && HasOffer(cfg, log, q.queues[k], q.clk)
  }

  ghost predicate Searchable(cfg: Config, ch: Channel, log: seq<Issued>, q: CmdQueue) {
    && Sized(cfg) && Exact(cfg, ch, log) && Past(log, q.clk) && 0 <= q.clk && QueuesShaped(cfg, q)
    && forall k :: 0 <= k < |q.queues| ==> OneRanked(cfg, q.queues[k])
  }

  /** Within `n` queues after `last` the first open one is `d` places behind, and its first offer is `cmd`. */
  ghost predicate Reached(cfg: Config, log: seq<Issued>, q: CmdQueue, last: int, n: nat, cmd: Command, d: nat, p: int)
    requires 0 < NumQueues(cfg) == |q.queues|
  {
    && 1 <= d <= n && Open(cfg, log, q, After(cfg, last, d))
    && (forall e: nat :: 1 <= e < d ==> !Open(cfg, log, q, After(cfg, last, e)))
    && FirstOffer(cfg, log, q.queues[After(cfg, last, d)], q.clk, cmd, p)
  }

  lemma SearchStep(cfg: Config, ch: Channel, q: CmdQueue, n: nat)
    requires Sized(cfg) && Shaped(cfg, ch) && QueuesShaped(cfg, q)
    ensures Search(cfg, ch, q, 0) == (q.queueIdx, Wait)
    ensures n > 0 ==>
      var i := NextIndex(cfg, q.queueIdx);
      0 <= i < |q.queues| &&
      Search(cfg, ch, q, n) ==
        if Shut(q, i) || FirstReady(cfg, ch, q.queues[i], q.clk, 0) == Wait then Search(cfg, ch, q.(queueIdx := i),
                                                                                        n - 1)
        else (i, FirstReady(cfg, ch, q.queues[i], q.clk, 0))
  {
    hide FirstReady;
  }

  /** What a search of `n` queues finds: the first offer of the first open queue, or that none is open. */
  ghost predicate Found(cfg: Config, log: seq<Issued>, q: CmdQueue, n: nat, i: int, r: Pick, d: nat, p: int)
    requires 0 < NumQueues(cfg) == |q.queues|
  {
    match r
    case Abort => false
    case Wait =>
      i == After(cfg, q.queueIdx, n) && forall e: nat :: 1 <= e <= n ==> !Open(cfg, log, q, After(cfg, q.queueIdx, e))
    case Issue(cmd) => Reached(cfg, log, q, q.queueIdx, n, cmd, d, p) && i == After(cfg, q.queueIdx, d)
  }

  lemma SearchFacts(cfg: Config, ch: Channel, log: seq<Issued>, q: CmdQueue)
    requires Searchable(cfg, ch, log, q)
    ensures Sized(cfg) && Shaped(cfg, ch) && Exact(cfg, ch, log) && Past(log, q.clk) && 0 <= q.clk
    ensures QueuesShaped(cfg, q) && 0 <= q.queueIdx < NumQueues(cfg) == |q.queues|
    ensures forall k :: 0 <= k < |q.queues| ==> OneRanked(cfg, q.queues[k]) && AllInBanks(cfg, q.queues[k])
  {
    hide Tracks, HitsMatch, JustifiedBank;
    ShapedExact(cfg, ch, log);
  }

  lemma SearchableNext(cfg: Config, ch: Channel, log: seq<Issued>, q: CmdQueue, q1: CmdQueue)
    requires Searchable(cfg, ch, log, q) && q1 == q.(queueIdx := q1.queueIdx) && 0 <= q1.queueIdx < |q.queues|
    ensures Searchable(cfg, ch, log, q1) && QueuesShaped(cfg, q1)
  {
    hide Exact, OneRanked, Past, AllInBanks;
  }

  lemma {:induction false} SearchIs(cfg: Config, ch: Channel, log: seq<Issued>, q: CmdQueue, n: nat)
    returns (d: nat, p: int)
    requires Searchable(cfg, ch, log, q)
    ensures Shaped(cfg, ch) && 0 <= q.queueIdx < NumQueues(cfg) == |q.queues|
    ensures var (i, r) := Search(cfg, ch, q, n); Found(cfg, log, q, n, i, r, d, p)
    decreases n
  {
    hide Exact, HasOffer, FirstOffer, FirstReady, Past, OneRanked, Search, Shaped, Found, Searchable, QueuesShaped,
         NumQueues, AllInBanks;
    SearchFacts(cfg, ch, log, q);
    var last := q.queueIdx;
    AfterOne(cfg, last);
    SearchStep(cfg, ch, q, n);
    d, p := 1, 0;
    if n == 0 {
      NoneFound(cfg, log, q, d, p);
    } else {
      var i := After(cfg, last, 1);
      AfterRange(cfg, last, 1);
      hide After, NextIndex;
      if !Shut(q, i) { p := FirstReadyIs(cfg, ch, log, q.queues[i], q.clk, 0); }
      if Open(cfg, log, q, i) {
        FoundHere(cfg, log, q, n, FirstReady(cfg, ch, q.queues[i], q.clk, 0).cmd, p);
      } else {
        var q1 := q.(queueIdx := i);
        SearchableNext(cfg, ch, log, q, q1);
        var d1;
        d1, p := SearchIs(cfg, ch, log, q1, n - 1);
        d := d1 + 1;
        var (j, r) := Search(cfg, ch, q1, n - 1);
        FoundLater(cfg, log, q, q1, n, j, r, d1, p);
      }
    }
  }

  lemma NoneFound(cfg: Config, log: seq<Issued>, q: CmdQueue, d: nat, p: int)
    requires 0 <= q.queueIdx < NumQueues(cfg) == |q.queues|
    ensures Found(cfg, log, q, 0, q.queueIdx, Wait, d, p)
  {
    AfterOne(cfg, q.queueIdx);
  }

  lemma FoundHere(cfg: Config, log: seq<Issued>, q: CmdQueue, n: nat, cmd: Command, p: int)
    requires 0 <= q.queueIdx < NumQueues(cfg) == |q.queues| && 0 < n && Open(cfg, log, q, After(cfg, q.queueIdx, 1))
    requires FirstOffer(cfg, log, q.queues[After(cfg, q.queueIdx, 1)], q.clk, cmd, p)
    ensures Found(cfg, log, q, n, After(cfg, q.queueIdx, 1), Issue(cmd), 1, p)
  {
    hide After, Open, FirstOffer;
  }

  lemma FoundLater(cfg: Config, log: seq<Issued>, q: CmdQueue, q1: CmdQueue, n: nat, i: int, r: Pick, d: nat, p: int)
    requires 0 <= q.queueIdx < NumQueues(cfg) == |q.queues| && 0 < n && q1 == q.(queueIdx := After(cfg, q.queueIdx, 1))
    requires !Open(cfg, log, q, After(cfg, q.queueIdx, 1)) && Found(cfg, log, q1, n - 1, i, r, d, p)
    ensures Found(cfg, log, q, n, i, r, d + 1, p)
  {
    hide After, Open, FirstOffer;
    AfterNext(cfg, q.queueIdx, d);
    AfterNext(cfg, q.queueIdx, n - 1);
    forall e: nat
        ensures Open(cfg, log, q1, After(cfg, q1.queueIdx, e)) <==> Open(cfg, log, q, After(cfg, q.queueIdx, e + 1)) {
      AfterNext(cfg, q.queueIdx, e);
      SameOpen(cfg, log, q, q1, After(cfg, q1.queueIdx, e));
    }
    var m := if r.Issue? then d + 1 else n + 1;
    forall e: nat | 1 <= e < m ensures !Open(cfg, log, q, After(cfg, q.queueIdx, e)) {
      if e > 1 { assert !Open(cfg, log, q1, After(cfg, q1.queueIdx, e - 1)); }
    }
  }

  lemma SameOpen(cfg: Config, log: seq<Issued>, q: CmdQueue, q1: CmdQueue, k: int)
    requires q1 == q.(queueIdx := q1.queueIdx)
    ensures Open(cfg, log, q1, k) <==> Open(cfg, log, q, k)
  {
  }

  // ---------------------------------------------------------------- a tick

  lemma QueueRanked(cfg: Config, queues: seq<seq<Command>>, k: int)
    requires ValidConfig(cfg) && cfg.Banks() != 0 && Placed(cfg, queues) && 0 <= k < |queues|
    requires AllInBanks(cfg, queues[k])
    ensures OneRanked(cfg, queues[k])
  {
    QueuesReadWrite(cfg, queues);
    hide AddressMap.ValidMapping, AddressMap.AddressMapping;
    forall j | 0 <= j < |queues[k]|
        ensures queues[k][j].addr.rank == if cfg.perRankQueues then k else k / cfg.Banks() {
      assert Fitting(cfg, queues[k][j], k);
      IndexOk(cfg, queues[k][j].addr);
    }
  }

  /** The queues of a sound state can be searched. */
  lemma StateSearchable(cfg: Config, s: Ctrl, q: CmdQueue)
    requires Core(cfg, s) && Exact(cfg, s.ch, s.log) && Past(s.log, s.clk)
    requires q.queues == s.cq.queues && q.clk == s.clk && 0 <= q.queueIdx < NumQueues(cfg)
    ensures Searchable(cfg, s.ch, s.log, q)
  {
    assert QueuesShaped(cfg, s.cq) && Placed(cfg, s.cq.queues) && ValidConfig(cfg) && cfg.Banks() != 0;
    hide Core, Exact, Past, Placed, OneRanked, ValidConfig, AllInBanks;
    ValidSized(cfg);
    forall k | 0 <= k < |q.queues| ensures OneRanked(cfg, q.queues[k]) { QueueRanked(cfg, s.cq.queues, k); }
  }

  lemma ValidSized(cfg: Config)
    requires ValidConfig(cfg)
    ensures Sized(cfg)
  {
  }

  /** While a refresh is in front the queues it shuts, and no others, are left out. */
  lemma OpenIs(cfg: Config, s: Ctrl, q: CmdQueue, k: int)
    requires Sized(cfg) && cfg.Banks() != 0 && RefreshState(cfg, s.ch, q) && (s.ch.refreshQ != [] ==> q.inRef)
    requires q.queues == s.cq.queues && q.clk == s.clk
    ensures Open(cfg, s.log, q, k) <==> Eager(cfg, s.log, s.ch.refreshQ, s.cq.queues, s.clk, k)
  {
    hide HasOffer, RefIndices;
  }

  /** The pick of the queues: the first offer of the first eager queue in turn. */
  lemma QueueChoice(cfg: Config, s: Ctrl, q0: CmdQueue) returns (d: nat, p: int)
    requires Core(cfg, s) && Exact(cfg, s.ch, s.log) && Past(s.log, s.clk) && Shaped(cfg, s.ch) && QueuesShaped(cfg, q0)
    requires Sized(cfg) && cfg.Banks() != 0 && 0 < NumQueues(cfg) == |s.cq.queues|
    requires q0.queues == s.cq.queues && q0.clk == s.clk && q0.queueIdx == s.cq.queueIdx
    requires RefreshState(cfg, s.ch, q0) && (s.ch.refreshQ != [] ==> q0.inRef)
    ensures var (q, r) := GetCommandToIssue(cfg, s.ch, q0);
      Found(cfg, s.log, q0, |q0.queues|, q.queueIdx, r, d, p)
  {
    hide Core, Exact, Past, Found, Search, RefreshState, Shaped, QueuesShaped, NumQueues, Erase, QueueIndex;
    QueueRange(cfg, q0);
    StateSearchable(cfg, s, q0);
    d, p := SearchIs(cfg, s.ch, s.log, q0, |q0.queues|);
    PickFound(cfg, s, q0);
  }

  lemma QueueRange(cfg: Config, q: CmdQueue)
    requires QueuesShaped(cfg, q)
    ensures 0 <= q.queueIdx < NumQueues(cfg) == |q.queues|
  {
    hide AllInBanks;
  }

  /** The entry that goes out is found and leaves its queue. */
  lemma PickFound(cfg: Config, s: Ctrl, q0: CmdQueue)
    requires Core(cfg, s) && Shaped(cfg, s.ch) && QueuesShaped(cfg, q0) && Sized(cfg) && cfg.Banks() != 0
    requires q0.queues == s.cq.queues && q0.clk == s.clk && q0.queueIdx == s.cq.queueIdx
    requires RefreshState(cfg, s.ch, q0) && (s.ch.refreshQ != [] ==> q0.inRef)
    ensures GetCommandToIssue(cfg, s.ch, q0).1 != Abort
  {
    hide RefreshState, QueuesShaped, TimersMatch, WindowsMatch, TraceOk, OneEach, NoneLost, Ordered, Sides,
         GetCommandToIssue;
    var i, p', m := QueuePickOk(cfg, s, q0);
  }

  /** What a sound state asks for at its tick, after the queue served last. */
  ghost predicate Asked(cfg: Config, log: seq<Issued>, refs: seq<Command>, queues: seq<seq<Command>>, clk: int,
                        last: int,
                        r: Pick) {
    && Sized(cfg) && cfg.Banks() != 0 && 0 < NumQueues(cfg) == |queues| && 0 <= last < NumQueues(cfg)
    && (refs != [] ==> Addressed(cfg, refs[0])) && Due(cfg, log, refs, queues, clk, last, r)
  }

  /** The queue that the command `r` was taken from, if it was taken from a queue. */
  ghost function TakenFrom(cfg: Config, log: seq<Issued>, refs: seq<Command>, clk: int, r: Pick): Option<int> {
    if r.Issue? && Sized(cfg) && (refs != [] ==> Addressed(cfg, refs[0])) && !RefreshServed(cfg, log, refs, clk) then
      Some(QueueIndex(cfg, r.cmd.addr))
    else None
  }

  function Served(last: int, taken: Option<int>): int { if taken.Some? then taken.value else last }

  lemma NoneEager(cfg: Config, s: Ctrl, q: CmdQueue, k: int)
    requires Sized(cfg) && cfg.Banks() != 0 && RefreshState(cfg, s.ch, q) && (s.ch.refreshQ != [] ==> q.inRef)
    requires q.queues == s.cq.queues && q.clk == s.clk && 0 <= q.queueIdx < NumQueues(cfg) == |q.queues|
    requires forall e: nat :: 1 <= e <= |q.queues| ==> !Open(cfg, s.log, q, After(cfg, q.queueIdx, e))
    ensures !Eager(cfg, s.log, s.ch.refreshQ, s.cq.queues, s.clk, k)
  {
    hide RefreshState, After, HasOffer;
    if 0 <= k < |q.queues| {
      var d := AfterAll(cfg, q.queueIdx, k);
      OpenIs(cfg, s, q, k);
    }
  }

  lemma ReachedTurn(cfg: Config, s: Ctrl, q: CmdQueue, cmd: Command, d: nat, p: int)
    requires Sized(cfg) && cfg.Banks() != 0 && RefreshState(cfg, s.ch, q) && (s.ch.refreshQ != [] ==> q.inRef)
    requires q.queues == s.cq.queues && q.clk == s.clk && 0 <= q.queueIdx < NumQueues(cfg) == |q.queues|
    requires Reached(cfg, s.log, q, q.queueIdx, |q.queues|, cmd, d, p)
    requires QueueIndex(cfg, cmd.addr) == After(cfg, q.queueIdx, d)
    ensures Turn(cfg, s.log, s.ch.refreshQ, s.cq.queues, s.clk, q.queueIdx, cmd, d, p)
  {
    hide RefreshState, After, HasOffer, FirstOffer, Open, Eager;
    forall e: nat ensures Open(cfg, s.log, q, After(cfg, q.queueIdx, e)) <==>
        Eager(cfg, s.log, s.ch.refreshQ, s.cq.queues, s.clk, After(cfg, q.queueIdx, e)) {
      OpenIs(cfg, s, q, After(cfg, q.queueIdx, e));
    }
  }

  lemma OwnQueue(cfg: Config, s: Ctrl, cmd: Command, i: int, p: int)
    requires Core(cfg, s) && 0 <= i < |s.cq.queues| && FirstOffer(cfg, s.log, s.cq.queues[i], s.clk, cmd, p)
    ensures QueueIndex(cfg, cmd.addr) == i
  {
    hide Device, Sides, OneEach, NoneLost, Ordered, Offered;
    assert Fitting(cfg, s.cq.queues[i][p], i);
  }

  /** What the queues give when the refresh in front can have no command. */
  lemma FoundAsked(cfg: Config, s: Ctrl, q: CmdQueue, i: int, r: Pick, d: nat, p: int)
    requires Core(cfg, s) && Sized(cfg) && cfg.Banks() != 0 && RefreshState(cfg, s.ch, q)
    requires s.ch.refreshQ != [] ==> q.inRef && Addressed(cfg, s.ch.refreshQ[0])
    requires q.queues == s.cq.queues && q.clk == s.clk && q.queueIdx == s.cq.queueIdx
    requires 0 <= q.queueIdx < NumQueues(cfg) == |q.queues|
    requires Found(cfg, s.log, q, |q.queues|, i, r, d, p) && !RefreshServed(cfg, s.log, s.ch.refreshQ, s.clk)
    ensures Asked(cfg, s.log, s.ch.refreshQ, s.cq.queues, s.clk, s.cq.queueIdx, r)
    ensures i == Served(s.cq.queueIdx, TakenFrom(cfg, s.log, s.ch.refreshQ, s.clk, r))
  {
    hide Core, RefreshState, After, HasOffer, Open, Eager, RefreshServed, NumQueues, QueueIndex;
    AfterOne(cfg, q.queueIdx);
    if r.Issue? {
      hide FirstOffer;
      AfterRange(cfg, q.queueIdx, d);
      OwnQueue(cfg, s, r.cmd, i, p);
      ReachedTurn(cfg, s, q, r.cmd, d, p);
      TurnEager(cfg, s.log, s.ch.refreshQ, s.cq.queues, s.clk, q.queueIdx, r.cmd, d, p);
      hide Turn;
    } else {
      forall k ensures !Eager(cfg, s.log, s.ch.refreshQ, s.cq.queues, s.clk, k) { NoneEager(cfg, s, q, k); }
    }
  }

  lemma TurnEager(cfg: Config, log: seq<Issued>, refs: seq<Command>, queues: seq<seq<Command>>, clk: int, last: int,
                  cmd: Command, d: nat, p: int)
    requires Sized(cfg) && cfg.Banks() != 0 && 0 < NumQueues(cfg) == |queues|
    requires Turn(cfg, log, refs, queues, clk, last, cmd, d, p)
    ensures exists k :: Eager(cfg, log, refs, queues, clk, k)
  {
    hide Eager, FirstOffer;
  }

  /** The controller sends out what the trace asks for, and remembers the queue it served. */
  lemma ChoiceAsked(cfg: Config, s: Ctrl)
    requires Core(cfg, s) && Exact(cfg, s.ch, s.log) && Past(s.log, s.clk)
    ensures Shapely(cfg, s)
    ensures var (q, r) := Choose(cfg, s);
      && Asked(cfg, s.log, s.ch.refreshQ, s.cq.queues, s.clk, s.cq.queueIdx, r)
      && q.queueIdx == Served(s.cq.queueIdx, TakenFrom(cfg, s.log, s.ch.refreshQ, s.clk, r))
  {
    CoreShapely(cfg, s);
    CoreFacts(cfg, s);
    hide Core, Exact, Past, FinishRefresh, GetCommandToIssue, Shapely, RefreshState, QueuesShaped, Shaped, Due, Found,
         RefreshServed, NumQueues, QueueIndex, Addressed;
    if s.ch.refreshQ == [] {
      NoRefresh(cfg, s);
      var d, p := QueueChoice(cfg, s, s.cq);
      var (q, r) := GetCommandToIssue(cfg, s.ch, s.cq);
      FoundAsked(cfg, s, s.cq, q.queueIdx, r, d, p);
    } else {
      FrontChoice(cfg, s);
      var (q1, r1) := FinishRefresh(cfg, s.ch, s.cq);
      if r1 == Wait {
        QueueFrame(cfg, s.cq, q1);
        var d, p := QueueChoice(cfg, s, q1);
        var (q, r) := GetCommandToIssue(cfg, s.ch, q1);
        FoundAsked(cfg, s, q1, q.queueIdx, r, d, p);
      }
    }
  }

  lemma CoreFacts(cfg: Config, s: Ctrl)
    requires Core(cfg, s)
    ensures ValidConfig(cfg) && Sized(cfg) && cfg.Banks() != 0 && Shaped(cfg, s.ch) && QueuesShaped(cfg, s.cq)
    ensures RefreshState(cfg, s.ch, s.cq) && s.cq.clk == s.clk && 0 <= s.cq.queueIdx < NumQueues(cfg) == |s.cq.queues|
    ensures s.ch.refreshQ != [] ==> Addressed(cfg, s.ch.refreshQ[0]) && IsRefresh(s.ch.refreshQ[0].ty)
  {
    hide Books, TimersMatch, RowsMatch, WindowsMatch, TraceOk;
  }

  lemma NoRefresh(cfg: Config, s: Ctrl)
    requires Sized(cfg) && s.ch.refreshQ == []
    ensures !RefreshServed(cfg, s.log, s.ch.refreshQ, s.clk)
  {
  }

  lemma QueueFrame(cfg: Config, q: CmdQueue, q': CmdQueue)
    requires QueuesShaped(cfg, q) && q'.queues == q.queues && q'.queueIdx == q.queueIdx
    ensures QueuesShaped(cfg, q')
  {
  }

  lemma FrontChoice(cfg: Config, s: Ctrl)
    requires Core(cfg, s) && Exact(cfg, s.ch, s.log) && Past(s.log, s.clk) && s.ch.refreshQ != [] && Shaped(cfg, s.ch)
    requires Sized(cfg) && cfg.Banks() != 0 && Addressed(cfg, s.ch.refreshQ[0]) && IsRefresh(s.ch.refreshQ[0].ty)
    requires 0 <= s.cq.queueIdx < NumQueues(cfg) == |s.cq.queues| && s.cq.clk == s.clk
    ensures var (q, r) := FinishRefresh(cfg, s.ch, s.cq);
      && q.queues == s.cq.queues && q.clk == s.clk && q.queueIdx == s.cq.queueIdx && r != Abort
      && (r == Wait ==> q.inRef && RefreshState(cfg, s.ch, q) && !RefreshServed(cfg, s.log, s.ch.refreshQ, s.clk))
      && (r.Issue? ==> Asked(cfg, s.log, s.ch.refreshQ, s.cq.queues, s.clk, s.cq.queueIdx, r)
                       && RefreshServed(cfg, s.log, s.ch.refreshQ, s.clk))
  {
    hide Core, Exact, Past, Serves, RefreshState, Shaped, NumQueues, RefIndices, ReadyCommand;
    RefreshPickOk(cfg, s);
    RefreshIs(cfg, s.ch, s.log, s.ch.refreshQ[0], s.clk);
  }

  // ---------------------------------------------------------------- runs

  lemma ExactFrame(cfg: Config, ch: Channel, ch': Channel, log: seq<Issued>)
    requires Exact(cfg, ch, log) && ch' == ch.(refreshQ := ch'.refreshQ)
    ensures Exact(cfg, ch', log)
  {
    hide RowMatch, HitMatch, JustifiedBank, TraceOk, Consulted, WindowMatch;
  }

  /** In every run the channel says of every bank exactly what the trace says. */
  lemma RunExact(cfg: Config, ops: seq<Op>)
    requires ValidConfig(cfg)
    ensures Run(cfg, ops).Some? && Exact(cfg, Run(cfg, ops).value.ch, Run(cfg, ops).value.log)
  {
    hide Run, ValidConfig, Books, RefreshState, InOrder, Past, QueuesShaped, HitMatch, JustifiedBank, RowsMatch,
         TimersMatch, WindowsMatch, TraceOk;
    RunInv(cfg, ops);
    RunHits(cfg, ops);
    RunJustified(cfg, ops);
  }

  /** The refreshes waiting at a tick, with the one inserted by it. */
  ghost function Refs(cfg: Config, s: Ctrl): seq<Command>
    requires ValidConfig(cfg)
  {
    RefreshTick(cfg, s).ch.refreshQ
  }

  /** The queue from which the next tick takes its command. */
  ghost function Taken(cfg: Config, s: Ctrl): Option<int>
    requires ValidConfig(cfg)
  {
    if Shapely(cfg, RefreshTick(cfg, s)) then TakenFrom(cfg, s.log, Refs(cfg, s), s.clk, TickPick(cfg, s)) else None
  }

  /** The queue that a run served last; the first one before any is. */
  ghost function LastServed(cfg: Config, ops: seq<Op>): int
    requires ValidConfig(cfg)
  {
    if ops == [] then 0
    else
      var before := ops[..|ops| - 1];
      var s := Run(cfg, before);
      if s.Some? && ops[|ops| - 1] == Tick then Served(LastServed(cfg, before), Taken(cfg, s.value))
      else LastServed(cfg, before)
  }

  lemma TickState(cfg: Config, s: Ctrl)
    requires ValidConfig(cfg)
    ensures var s1 := RefreshTick(cfg, s);
      s1.clk == s.clk && s1.log == s.log && s1.cq == s.cq && s1.ch == s.ch.(refreshQ := s1.ch.refreshQ)
  {
  }

  lemma ScheduleIndex(cfg: Config, s: Ctrl)
    requires AddressMap.ValidMapping(cfg)
    ensures ScheduleTransaction(cfg, s).cq.queueIdx == s.cq.queueIdx
  {
    hide TransToCommand, Has, FirstAccepted, Draining, AddressMap.ValidMapping;
  }

  lemma FormIndex(cfg: Config, s: Ctrl, s': Ctrl, q: CmdQueue, r: Pick)
    requires Shaped(cfg, s.ch) && StepForm(cfg, s, s', q, r)
    ensures s'.cq == q
  {
    hide Ready, Update, Matching, Others, EraseOne, Completed;
  }

  /** A tick leaves the index at the queue that its search stopped at. */
  lemma TickIndex(cfg: Config, s: Ctrl)
    requires Inv(cfg, s)
    ensures ValidConfig(cfg) && Shapely(cfg, RefreshTick(cfg, s)) && Step(cfg, s, Tick).Some?
    ensures Step(cfg, s, Tick).value.cq.queueIdx == Choose(cfg, RefreshTick(cfg, s)).0.queueIdx
  {
    hide Inv, Core, StepForm, Choose, IssueStep, RefreshTick, ValidConfig, ScheduleTransaction, Shaped, Shapely;
    var s1, s' := TickStages(cfg, s);
    ShapelyShaped(cfg, s1);
    FormIndex(cfg, s1, IssueStep(cfg, s1).value, Choose(cfg, s1).0, Choose(cfg, s1).1);
    MappingOk(cfg);
    ScheduleIndex(cfg, IssueStep(cfg, s1).value);
  }

  /** The choice of a tick from a sound state. */
  lemma TickAsked(cfg: Config, s: Ctrl)
    requires Inv(cfg, s) && Exact(cfg, s.ch, s.log)
    ensures ValidConfig(cfg) && Shapely(cfg, RefreshTick(cfg, s)) && Step(cfg, s, Tick).Some?
    ensures Asked(cfg, s.log, Refs(cfg, s), s.cq.queues, s.clk, s.cq.queueIdx, TickPick(cfg, s))
    ensures Step(cfg, s, Tick).value.cq.queueIdx == Served(s.cq.queueIdx, Taken(cfg, s))
  {
    hide Inv, Core, Exact, Choose, RefreshTick, Past, Asked, Shapely, ValidConfig, TakenFrom, Step;
    var s1, s' := TickStages(cfg, s);
    TickState(cfg, s);
    ExactFrame(cfg, s.ch, s1.ch, s.log);
    InvPast(cfg, s);
    ChoiceAsked(cfg, s1);
    TickIndex(cfg, s);
  }

  lemma OtherIndex(cfg: Config, s: Ctrl, op: Op)
    requires ValidConfig(cfg) && op != Tick && Step(cfg, s, op).Some?
    ensures Step(cfg, s, op).value.cq == s.cq
  {
    hide Has, FirstDone, ValidConfig;
  }

  /** In every run the queue index is the queue served last. */
  lemma {:induction false} RunServed(cfg: Config, ops: seq<Op>)
    requires ValidConfig(cfg)
    ensures Run(cfg, ops).Some? && Run(cfg, ops).value.cq.queueIdx == LastServed(cfg, ops)
  {
    hide ValidConfig, Inv, Step, Exact, Taken, Shapely, Asked, TickPick;
    if ops != [] {
      var before := ops[..|ops| - 1];
      RunInv(cfg, before);
      RunServed(cfg, before);
      var s := Run(cfg, before).value;
      if ops[|ops| - 1] == Tick {
        RunExact(cfg, before);
        TickAsked(cfg, s);
      } else {
        RunInv(cfg, ops);
        OtherIndex(cfg, s, ops[|ops| - 1]);
      }
    }
  }

  /** In every run the next tick sends out what the trace, the data sheet, the waiting refreshes and the
      queues ask for: a command for the refresh in front; if it can have none, the oldest offer of the
      first open queue with one, counted from the queue after the one served last; if there is none,
      nothing. */
  lemma RunAsked(cfg: Config, ops: seq<Op>)
    requires ValidConfig(cfg)
    ensures Run(cfg, ops).Some? && Shapely(cfg, RefreshTick(cfg, Run(cfg, ops).value))
    ensures var s := Run(cfg, ops).value;
      && Asked(cfg, s.log, Refs(cfg, s), s.cq.queues, s.clk, LastServed(cfg, ops), TickPick(cfg, s))
      && Run(cfg, ops + [Tick]).Some?
      && Run(cfg, ops + [Tick]).value.log ==
           s.log + match TickPick(cfg, s) case Issue(cmd) => [Issued(s.clk, cmd)] case _ => []
  {
    hide ValidConfig, Inv, Step, Exact, Asked, Shapely, RefreshTick, Choose, LastServed, Core, StepForm, IssueStep;
    RunInv(cfg, ops);
    RunExact(cfg, ops);
    RunServed(cfg, ops);
    var s := Run(cfg, ops).value;
    TickAsked(cfg, s);
    assert (ops + [Tick])[..|ops|] == ops;
    var s1, s' := TickStages(cfg, s);
    TickState(cfg, s);
    StepLog(cfg, s1, IssueStep(cfg, s1).value);
  }
}
