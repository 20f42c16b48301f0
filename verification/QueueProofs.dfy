/** What the command queues hand out: always the next step of some waiting request whose queue no
    refresh has shut. */
module QueueProofs {
  import opened Common
  import opened Banks
  import opened Channels
  import opened ChannelProofs
  import opened CommandQueues
  import opened Options
  import Arith

  ghost predicate NoSref(cfg: Config, ch: Channel)
    requires Shaped(cfg, ch)
  {
    forall b :: ValidBank(cfg, b) ==> ch.banks[b].state != Sref
  }

  ghost predicate AllReadWrite(queue: seq<Command>) {
    forall j :: 0 <= j < |queue| ==> IsReadWrite(queue[j].ty)
  }

  /** `cmd` is the next step of entry `p` of `queue`. */
  ghost predicate StepOf(cmd: Command, queue: seq<Command>, p: int) {
    && 0 <= p < |queue| && IsReadWrite(queue[p].ty)
    && cmd.addr == queue[p].addr && cmd.hexAddr == queue[p].hexAddr
    && cmd.ty in {queue[p].ty, Activate, Precharge}
    && (IsWrite(cmd.ty) ==> !HasRWDependency(queue, p))
  }

  lemma CandidateOk(cfg: Config, ch: Channel, queue: seq<Command>, p: int, clk: int)
    requires Sized(cfg) && Shaped(cfg, ch) && NoSref(cfg, ch)
    requires AllInBanks(cfg, queue) && AllReadWrite(queue) && 0 <= p < |queue|
    ensures var r := Candidate(cfg, ch, queue, p, clk);
      r != Abort && (r.Issue? ==> Ready(cfg, ch, r.cmd, clk) && StepOf(r.cmd, queue, p))
  {
    ReadyStep(cfg, ch, queue[p], clk);
  }

  lemma {:induction false} FirstReadyOk(cfg: Config, ch: Channel, queue: seq<Command>, clk: int, i: nat)
    returns (p: int)
    requires Sized(cfg) && Shaped(cfg, ch) && NoSref(cfg, ch)
    requires AllInBanks(cfg, queue) && AllReadWrite(queue) && i <= |queue|
    ensures var r := FirstReady(cfg, ch, queue, clk, i);
      r != Abort && (r.Issue? ==> Ready(cfg, ch, r.cmd, clk) && StepOf(r.cmd, queue, p))
    decreases |queue| - i
  {
    p := i;
    if i < |queue| {
      CandidateOk(cfg, ch, queue, i, clk);
      if Candidate(cfg, ch, queue, i, clk) == Wait { p := FirstReadyOk(cfg, ch, queue, clk, i + 1); }
    }
  }

  predicate Shut(q: CmdQueue, i: int) { q.inRef && i in q.refIdx }

  lemma {:induction false} SearchOk(cfg: Config, ch: Channel, q: CmdQueue, n: nat) returns (p: int)
    requires Sized(cfg) && Shaped(cfg, ch) && NoSref(cfg, ch) && QueuesShaped(cfg, q)
    requires forall i :: 0 <= i < |q.queues| ==> AllReadWrite(q.queues[i])
    ensures var (i, r) := Search(cfg, ch, q, n);
      r != Abort && (r.Issue? ==> Ready(cfg, ch, r.cmd, q.clk) && StepOf(r.cmd, q.queues[i], p) && !Shut(q, i))
    decreases n
  {
    p := 0;
    if n > 0 {
      var i := NextIndex(cfg, q.queueIdx);
      if Shut(q, i) {
        p := SearchOk(cfg, ch, q.(queueIdx := i), n - 1);
      } else {
        p := FirstReadyOk(cfg, ch, q.queues[i], q.clk, 0);
        if FirstReady(cfg, ch, q.queues[i], q.clk, 0) == Wait { p := SearchOk(cfg, ch, q.(queueIdx := i), n - 1); }
      }
    }
  }

  /** Erasing finds the entry whenever there is one, and takes out exactly that entry. */
  lemma {:induction false} EraseOk(queue: seq<Command>, cmd: Command, p: int) returns (m: int)
    requires 0 <= p < |queue| && queue[p].hexAddr == cmd.hexAddr && queue[p].ty == cmd.ty
    ensures 0 <= m <= p && queue[m].hexAddr == cmd.hexAddr && queue[m].ty == cmd.ty
    ensures Erase(queue, cmd) == Some(queue[..m] + queue[m + 1..])
  {
    hide Erase;
    if queue[0].hexAddr == cmd.hexAddr && queue[0].ty == cmd.ty {
      m := 0;
      EraseFront(queue, cmd);
    } else {
      EraseSkips(queue, cmd);
      var m' := EraseOk(queue[1..], cmd, p - 1);
      m := m' + 1;
      ConsRemove(queue, m);
    }
  }

  lemma EraseFront(queue: seq<Command>, cmd: Command)
    requires queue != [] && queue[0].hexAddr == cmd.hexAddr && queue[0].ty == cmd.ty
    ensures Erase(queue, cmd) == Some(queue[..0] + queue[1..])
  {
    assert queue[..0] + queue[1..] == queue[1..];
  }

  lemma EraseSkips(queue: seq<Command>, cmd: Command)
    requires queue != [] && !(queue[0].hexAddr == cmd.hexAddr && queue[0].ty == cmd.ty)
    ensures Erase(queue[1..], cmd).Some? ==> Erase(queue, cmd) == Some([queue[0]] + Erase(queue[1..], cmd).value)
  {
  }

  lemma ConsRemove(queue: seq<Command>, m: int)
    requires 1 <= m < |queue|
    ensures [queue[0]] + (queue[1..][..m - 1] + queue[1..][m..]) == queue[..m] + queue[m + 1..]
  {
    assert queue[1..][..m - 1] == queue[1..m] && queue[1..][m..] == queue[m + 1..];
  }

  /** Distinct banks of a channel have distinct queues in PER_BANK mode, ranks do in PER_RANK
      mode, and every index is in range. */
  lemma IndexOk(cfg: Config, a: Address)
    requires Sized(cfg) && ValidBank(cfg, BankOf(a))
    ensures 0 <= QueueIndex(cfg, a) < NumQueues(cfg)
    ensures 0 < cfg.Banks()
    ensures !cfg.perRankQueues ==> QueueIndex(cfg, a) / cfg.Banks() == a.rank
    ensures !cfg.perRankQueues ==> QueueIndex(cfg, a) % cfg.Banks() == a.bankgroup * cfg.banksPerGroup + a.bank
  {
    Arith.MulPos(cfg.bankgroups, cfg.banksPerGroup);
    Arith.Pack(a.bankgroup, a.bank, cfg.bankgroups, cfg.banksPerGroup);
    Arith.Pack(a.rank, a.bankgroup * cfg.banksPerGroup + a.bank, cfg.ranks, cfg.Banks());
    assert cfg.Banks() * cfg.ranks == cfg.ranks * cfg.Banks();
  }

  /** The queues a refresh shuts hold every request to a bank it covers. In PER_BANK mode they
      hold nothing else; in PER_RANK mode the whole queue of its rank is shut. */
  lemma RefIndicesCover(cfg: Config, ref: Command, a: Address)
    requires Sized(cfg) && IsRefresh(ref.ty) && Addressed(cfg, ref) && ValidBank(cfg, BankOf(a)) && cfg.Banks() != 0
    ensures QueueIndex(cfg, a) in RefIndices(cfg, ref) <==>
            if cfg.perRankQueues then a.rank == ref.addr.rank else Covers(cfg, ref, BankOf(a))
  {
    IndexOk(cfg, a);
    if ref.ty == RefreshBank {
      IndexOk(cfg, ref.addr);
      if QueueIndex(cfg, a) == QueueIndex(cfg, ref.addr) && !cfg.perRankQueues {
        Arith.Pack(a.bankgroup, a.bank, cfg.bankgroups, cfg.banksPerGroup);
        Arith.Pack(ref.addr.bankgroup, ref.addr.bank, cfg.bankgroups, cfg.banksPerGroup);
      }
    }
  }
}
