/** Whole-run invariants of the controller. */
module ControllerProofs {
  import opened Common
  import opened Channels
  import opened ChannelProofs
  import opened CommandQueues
  import opened QueueProofs
  import opened Controllers
  import opened Trace
  import AddressMap

  // ---------------------------------------------------------------- conservation

  /** A waiting request: an address and its direction. */
  datatype Key = Key(addr: nat, isWrite: bool)

  function TransKeys(ts: seq<Transaction>): seq<Key> {
    seq(|ts|, i requires 0 <= i < |ts| => Key(ts[i].addr, ts[i].isWrite))
  }

  function CmdKeys(q: seq<Command>): seq<Key> {
    seq(|q|, i requires 0 <= i < |q| => Key(q[i].hexAddr, IsWrite(q[i].ty)))
  }

  function QueueKeys(qs: seq<seq<Command>>): multiset<Key> {
    if qs == [] then multiset{} else QueueKeys(qs[..|qs| - 1]) + multiset(CmdKeys(qs[|qs| - 1]))
  }

  /** Everything between acceptance and issue, over transaction and command queues. */
  function Waiting(s: Ctrl): multiset<Key> {
    multiset(TransKeys(s.unified)) + multiset(TransKeys(s.readQ)) + multiset(TransKeys(s.writeBuf))
    + QueueKeys(s.cq.queues)
  }

  /** Each address with a pending read (write) waits exactly once as a read (write). */
  ghost predicate OneEach(s: Ctrl) {
    forall k: Key :: Waiting(s)[k] == if Has(if k.isWrite then s.pendingWr else s.pendingRd, k.addr) then 1 else 0
  }

  function Tickets(ts: seq<Transaction>): seq<Ticket> {
    seq(|ts|, i requires 0 <= i < |ts| => Ticketed(ts[i]))
  }

  /** Every accepted transaction is a pending read, waits for its callback, or was called back. */
  ghost predicate NoneLost(s: Ctrl) {
    multiset(s.accepted) == multiset(Tickets(s.pendingRd)) + multiset(Tickets(s.returnQ)) + s.returned
  }

  lemma TransKeysRemove(ts: seq<Transaction>, i: int)
    requires 0 <= i < |ts|
    ensures multiset(TransKeys(ts)) == multiset(TransKeys(Removed(ts, i))) + multiset{Key(ts[i].addr, ts[i].isWrite)}
  {
    var k := TransKeys(ts);
    assert k == k[..i] + [k[i]] + k[i + 1..];
    assert TransKeys(Removed(ts, i)) == k[..i] + k[i + 1..];
  }

  lemma TransKeysAdd(ts: seq<Transaction>, t: Transaction)
    ensures multiset(TransKeys(ts + [t])) == multiset(TransKeys(ts)) + multiset{Key(t.addr, t.isWrite)}
  {
    assert TransKeys(ts + [t]) == TransKeys(ts) + [Key(t.addr, t.isWrite)];
  }

  lemma CmdKeysRemove(q: seq<Command>, i: int)
    requires 0 <= i < |q|
    ensures multiset(CmdKeys(q)) == multiset(CmdKeys(Removed(q, i))) + multiset{Key(q[i].hexAddr, IsWrite(q[i].ty))}
  {
    var k := CmdKeys(q);
    assert k == k[..i] + [k[i]] + k[i + 1..];
    assert CmdKeys(Removed(q, i)) == k[..i] + k[i + 1..];
  }

  lemma CmdKeysAdd(q: seq<Command>, c: Command)
    ensures multiset(CmdKeys(q + [c])) == multiset(CmdKeys(q)) + multiset{Key(c.hexAddr, IsWrite(c.ty))}
  {
    assert CmdKeys(q + [c]) == CmdKeys(q) + [Key(c.hexAddr, IsWrite(c.ty))];
  }

  lemma {:induction false} QueueKeysUpdate(qs: seq<seq<Command>>, i: int, q: seq<Command>)
    requires 0 <= i < |qs|
    ensures QueueKeys(qs[i := q]) + multiset(CmdKeys(qs[i])) == QueueKeys(qs) + multiset(CmdKeys(q))
  {
    var n := |qs| - 1;
    if i < n {
      QueueKeysUpdate(qs[..n], i, q);
      assert qs[i := q][..n] == qs[..n][i := q] && qs[i := q][n] == qs[n] && qs[..n][i] == qs[i];
      var last := multiset(CmdKeys(qs[n]));
      assert QueueKeys(qs[i := q]) == QueueKeys(qs[..n][i := q]) + last;
      assert QueueKeys(qs) == QueueKeys(qs[..n]) + last;
      var a, b, c, d := QueueKeys(qs[..n][i := q]), multiset(CmdKeys(qs[i])), QueueKeys(qs[..n]), multiset(CmdKeys(q));
      assert a + b == c + d;
      assert (a + last) + b == (a + b) + last;
      assert (c + last) + d == (c + d) + last;
    } else {
      assert qs[i := q][..n] == qs[..n];
    }
  }

  lemma {:induction false} TicketsSplit(ts: seq<Transaction>, addr: nat)
    ensures multiset(Tickets(ts)) == multiset(Tickets(Matching(ts, addr))) + multiset(Tickets(Others(ts, addr)))
  {
    if ts != [] {
      TicketsSplit(ts[1..], addr);
      var head := if ts[0].addr == addr then [ts[0]] else [];
      var rest := if ts[0].addr == addr then [] else [ts[0]];
      assert ts == [ts[0]] + ts[1..];
      TicketsAdd([ts[0]], ts[1..]);
      TicketsAdd(head, Matching(ts[1..], addr));
      TicketsAdd(rest, Others(ts[1..], addr));
      assert Tickets([]) == [];
    }
  }

  lemma TicketsAdd(ts: seq<Transaction>, more: seq<Transaction>)
    ensures multiset(Tickets(ts + more)) == multiset(Tickets(ts)) + multiset(Tickets(more))
  {
    assert Tickets(ts + more) == Tickets(ts) + Tickets(more);
  }

  lemma TicketsRemove(ts: seq<Transaction>, i: int)
    requires 0 <= i < |ts|
    ensures multiset(Tickets(ts)) == multiset(Tickets(Removed(ts, i))) + multiset{Ticketed(ts[i])}
  {
    var k := Tickets(ts);
    assert k == k[..i] + [k[i]] + k[i + 1..];
    assert Tickets(Removed(ts, i)) == k[..i] + k[i + 1..];
  }

  lemma {:induction false} OthersHas(ts: seq<Transaction>, addr: nat, a: nat)
    ensures Has(Others(ts, addr), a) <==> a != addr && Has(ts, a)
  {
    if ts != [] {
      OthersHas(ts[1..], addr, a);
      HasCons(ts, a);
      HasCons(Others(ts, addr), a);
      if ts[0].addr == addr {
        assert Others(ts, addr) == Others(ts[1..], addr);
      } else {
        assert Others(ts, addr)[1..] == Others(ts[1..], addr);
      }
    }
  }

  lemma HasCons(ts: seq<Transaction>, a: nat)
    ensures ts != [] ==> (Has(ts, a) <==> ts[0].addr == a || Has(ts[1..], a))
  {
    if ts != [] && Has(ts, a) {
      var i :| 0 <= i < |ts| && ts[i].addr == a;
      if i > 0 { assert ts[1..][i - 1].addr == a; }
    }
    if ts != [] && Has(ts[1..], a) {
      var i :| 0 <= i < |ts[1..]| && ts[1..][i].addr == a;
      assert ts[i + 1].addr == a;
    }
  }

  /** No address twice among the pending writes. */
  ghost predicate SingleWrites(ts: seq<Transaction>) {
    forall i, j :: 0 <= i < j < |ts| ==> ts[i].addr != ts[j].addr
  }

  lemma {:induction false} EraseOneHas(ts: seq<Transaction>, addr: nat, a: nat)
    requires SingleWrites(ts)
    ensures Has(EraseOne(ts, addr), a) <==> a != addr && Has(ts, a)
    ensures SingleWrites(EraseOne(ts, addr))
  {
    if ts != [] {
      EraseOneHas(ts[1..], addr, a);
      HasCons(ts, a);
      HasCons(EraseOne(ts, addr), a);
      EraseOneSub(ts[1..], addr);
      assert forall i :: 0 <= i < |ts[1..]| ==> ts[1..][i] == ts[i + 1];
    }
  }

  lemma {:induction false} EraseOneSub(ts: seq<Transaction>, addr: nat)
    ensures forall i :: 0 <= i < |EraseOne(ts, addr)| ==> EraseOne(ts, addr)[i] in ts
  {
    if ts != [] && ts[0].addr != addr { EraseOneSub(ts[1..], addr); }
  }

  // ---------------------------------------------------------------- the invariant

  /** A queue entry is the command of its own address and direction, in its own queue. */
  predicate Fitting(cfg: Config, c: Command, k: int)
    requires AddressMap.ValidMapping(cfg)
  {
    c == TransToCommand(cfg, Transaction(c.hexAddr, IsWrite(c.ty), 0, 0)) && QueueIndex(cfg, c.addr) == k
  }

  ghost predicate Placed(cfg: Config, qs: seq<seq<Command>>)
    requires AddressMap.ValidMapping(cfg)
  {
    forall k, j :: 0 <= k < |qs| && 0 <= j < |qs[k]| ==> Fitting(cfg, qs[k][j], k)
  }

  predicate AllSide(ts: seq<Transaction>, isWrite: bool) { forall i :: 0 <= i < |ts| ==> ts[i].isWrite == isWrite }

  /** Reads and writes are kept apart in split mode and together in unified mode; the number of
      writes still to drain never exceeds the write buffer. */
  ghost predicate Sides(cfg: Config, s: Ctrl) {
    && AllSide(s.pendingRd, false) && AllSide(s.pendingWr, true)
    && AllSide(s.readQ, false) && AllSide(s.writeBuf, true)
    && 0 <= s.draining <= |s.writeBuf|
    && (if cfg.unifiedQueue then s.readQ == [] && s.writeBuf == [] else s.unified == [])
  }

  /** Every waiting refresh is of the configured kind; the shut queues are exactly those of the
      refresh in front, from the cycle its service starts to the cycle it is issued. */
  ghost predicate RefreshState(cfg: Config, ch: Channel, q: CmdQueue)
    requires cfg.Banks() != 0
  {
    && (forall i :: 0 <= i < |ch.refreshQ| ==>
          && Addressed(cfg, ch.refreshQ[i])
          && ch.refreshQ[i].ty == if cfg.refreshPolicy == BankLevelStaggered then RefreshBank else Refresh)
    && (q.inRef ==> ch.refreshQ != [] && q.refIdx == RefIndices(cfg, ch.refreshQ[0]))
    && (!q.inRef ==> q.refIdx == {})
  }

  ghost predicate OrderedTrans(ts: seq<Transaction>) {
    forall i, j :: 0 <= i < |ts| && 0 <= j < |ts| && !ts[i].isWrite && ts[j].isWrite && ts[i].addr == ts[j].addr ==>
        i < j
  }

  ghost predicate OrderedCmds(q: seq<Command>) {
    forall i, j :: 0 <= i < |q| && 0 <= j < |q| && IsRead(q[i].ty) && IsWrite(q[j].ty) ==>
      (q[i].hexAddr == q[j].hexAddr ==> i < j)
  }

  /** No queued write to `addr`. */
  ghost predicate NoWriteQueued(qs: seq<seq<Command>>, addr: nat) {
    forall k, j :: 0 <= k < |qs| && 0 <= j < |qs[k]| && IsWrite(qs[k][j].ty) ==> qs[k][j].hexAddr != addr
  }

  /** Where a read and a write of one address both wait, the read is ahead. */
  ghost predicate Ordered(cfg: Config, s: Ctrl) {
    if cfg.unifiedQueue then
      && OrderedTrans(s.unified)
      && (forall k :: 0 <= k < |s.cq.queues| ==> OrderedCmds(s.cq.queues[k]))
      && (forall i :: 0 <= i < |s.unified| && !s.unified[i].isWrite ==> NoWriteQueued(s.cq.queues, s.unified[i].addr))
    else forall a :: Has(s.pendingRd, a) ==> NoWriteQueued(s.cq.queues, a)
  }

  /** The channel agrees with its trace, the queues are in shape and the refresh bookkeeping holds. */
  ghost predicate Device(cfg: Config, s: Ctrl) {
    && ValidConfig(cfg) && cfg.Banks() != 0
    && Tracks(cfg, s.ch, s.log) && QueuesShaped(cfg, s.cq) && s.cq.clk == s.clk
    && RefreshState(cfg, s.ch, s.cq)
  }

  /** The books on transactions balance. */
  ghost predicate Books(cfg: Config, s: Ctrl) {
    && AddressMap.ValidMapping(cfg) && Placed(cfg, s.cq.queues)
    && Sides(cfg, s) && OneEach(s) && SingleWrites(s.pendingWr) && NoneLost(s) && Ordered(cfg, s)
  }

  ghost predicate Core(cfg: Config, s: Ctrl) { Device(cfg, s) && Books(cfg, s) }

  /** The books do not look at the channel, the clocks or the trace. */
  lemma BooksFrame(cfg: Config, s: Ctrl, s': Ctrl)
    requires Books(cfg, s)
    requires s' == s.(clk := s'.clk, ch := s'.ch, ref := s'.ref, log := s'.log, cq := s'.cq)
    requires s'.cq.queues == s.cq.queues
    ensures Books(cfg, s')
  {
    assert Waiting(s') == Waiting(s);
  }

  // ---------------------------------------------------------------- choosing a command

  /** The command serves the refresh in front: it is that refresh, or a precharge it needs. */
  ghost predicate ServesRefresh(cfg: Config, s: Ctrl, q: CmdQueue, cmd: Command)
    requires cfg.Banks() != 0
  {
    && s.ch.refreshQ != [] && q.queues == s.cq.queues
    && if cmd.ty == Precharge then Covers(cfg, s.ch.refreshQ[0], BankOf(cmd.addr)) && RefreshState(cfg, s.ch, q)
       else cmd == s.ch.refreshQ[0] && IsRefresh(cmd.ty) && !q.inRef && q.refIdx == {}
  }

  /** The command is the next step of entry `p` of the open queue `i`; entry `m` of that queue,
      of the same address and type, leaves if the command is the access itself. */
  ghost predicate ServesQueue(cfg: Config, s: Ctrl, q: CmdQueue, cmd: Command, i: int, p: int, m: int)
    requires cfg.Banks() != 0
  {
    && 0 <= i < |s.cq.queues| && StepOf(cmd, s.cq.queues[i], p) && !Shut(q, i)
    && RefreshState(cfg, s.ch, q) && (s.ch.refreshQ != [] ==> q.inRef)
    && (if IsReadWrite(cmd.ty) then
          && 0 <= m < |s.cq.queues[i]| && s.cq.queues[i][m].hexAddr == cmd.hexAddr && s.cq.queues[i][m].ty == cmd.ty
          && q.queues == s.cq.queues[i := Removed(s.cq.queues[i], m)]
        else q.queues == s.cq.queues)
  }

  lemma QueuesReadWrite(cfg: Config, qs: seq<seq<Command>>)
    requires AddressMap.ValidMapping(cfg) && Placed(cfg, qs)
    ensures forall i :: 0 <= i < |qs| ==> AllReadWrite(qs[i])
  {
    forall i, j | 0 <= i < |qs| && 0 <= j < |qs[i]| ensures IsReadWrite(qs[i][j].ty) {
      assert Fitting(cfg, qs[i][j], i);
    }
  }

  lemma QueuePickOk(cfg: Config, s: Ctrl, q0: CmdQueue) returns (i: int, p: int, m: int)
    requires Sized(cfg) && AddressMap.ValidMapping(cfg) && cfg.Banks() != 0
    requires Shaped(cfg, s.ch) && NoSref(cfg, s.ch) && QueuesShaped(cfg, q0) && Placed(cfg, q0.queues)
    requires q0.queues == s.cq.queues && q0.clk == s.clk
    requires RefreshState(cfg, s.ch, q0) && (s.ch.refreshQ != [] ==> q0.inRef)
    ensures var (q, r) := GetCommandToIssue(cfg, s.ch, q0);
      && r != Abort && q.clk == s.clk && 0 <= q.queueIdx < NumQueues(cfg) && RefreshState(cfg, s.ch, q)
      && (r == Wait ==> q.queues == s.cq.queues)
      && (r.Issue? ==> Ready(cfg, s.ch, r.cmd, s.clk) && ServesQueue(cfg, s, q, r.cmd, i, p, m))
  {
    QueuesReadWrite(cfg, q0.queues);
    p := SearchOk(cfg, s.ch, q0, |q0.queues|);
    var (k, r) := Search(cfg, s.ch, q0, |q0.queues|);
    i, m := k, 0;
    if r.Issue? && IsReadWrite(r.cmd.ty) {
      assert Fitting(cfg, s.cq.queues[i][p], i);
      hide Search, Shaped, NoSref, Ready, Fitting, AllReadWrite, AddressMap.ValidMapping;
      m := EraseOk(s.cq.queues[i], r.cmd, p);
    }
  }

  lemma RefreshPickOk(cfg: Config, s: Ctrl)
    requires Core(cfg, s) && s.ch.refreshQ != []
    ensures var (q, r) := FinishRefresh(cfg, s.ch, s.cq);
      && r != Abort && q.queues == s.cq.queues && q.clk == s.clk && q.queueIdx == s.cq.queueIdx
      && (r == Wait ==> q.inRef && RefreshState(cfg, s.ch, q))
      && (r.Issue? ==> Ready(cfg, s.ch, r.cmd, s.clk) && ServesRefresh(cfg, s, q, r.cmd))
  {
    var ref := s.ch.refreshQ[0];
    if ref.ty == Refresh { RankReadyStep(cfg, s.ch, ref, s.clk); } else { ReadyStep(cfg, s.ch, ref, s.clk); }
  }

  /** No query aborts, and every command chosen is ready and serves the refresh in front or an
      entry of an open queue. */
  lemma ChooseOk(cfg: Config, s: Ctrl) returns (i: int, p: int, m: int)
    requires Core(cfg, s)
    ensures var (q, r) := Choose(cfg, s);
      && r != Abort && q.clk == s.clk && 0 <= q.queueIdx < NumQueues(cfg)
      && (r == Wait ==> q.queues == s.cq.queues && RefreshState(cfg, s.ch, q))
      && (r.Issue? ==> Ready(cfg, s.ch, r.cmd, s.clk)
                       && (ServesRefresh(cfg, s, q, r.cmd) || ServesQueue(cfg, s, q, r.cmd, i, p, m)))
  {
    i, p, m := 0, 0, 0;
    if s.ch.refreshQ != [] {
      RefreshPickOk(cfg, s);
      var (q1, r1) := FinishRefresh(cfg, s.ch, s.cq);
      if r1 == Wait { i, p, m := QueuePickOk(cfg, s, q1); }
    } else {
      i, p, m := QueuePickOk(cfg, s, s.cq);
    }
  }

  // ---------------------------------------------------------------- issuing a command

  lemma RemovedPlaced(cfg: Config, q: CmdQueue, i: int, m: int)
    requires AddressMap.ValidMapping(cfg) && Placed(cfg, q.queues) && QueuesShaped(cfg, q)
    requires 0 <= i < |q.queues| && 0 <= m < |q.queues[i]|
    ensures var qs := q.queues[i := Removed(q.queues[i], m)];
      Placed(cfg, qs) && forall k :: 0 <= k < |qs| ==> AllInBanks(cfg, qs[k])
  {
    var old_ := q.queues[i];
    var new_: seq<Command> := Removed(old_, m);
    var qs := q.queues[i := new_];
    assert AllInBanks(cfg, old_);
    forall k, j | 0 <= k < |qs| && 0 <= j < |qs[k]|
        ensures Fitting(cfg, qs[k][j], k) && ValidBank(cfg, BankOf(qs[k][j].addr)) {
      if k == i {
        assert new_[j] == old_[if j < m then j else j + 1];
        assert Fitting(cfg, old_[if j < m then j else j + 1], i);
      } else {
        assert AllInBanks(cfg, q.queues[k]);
        assert Fitting(cfg, q.queues[k][j], k);
      }
    }
  }

  lemma RemovedOrdered(q: seq<Command>, m: int)
    requires OrderedCmds(q) && 0 <= m < |q|
    ensures OrderedCmds(Removed(q, m))
  {
    var r: seq<Command> := Removed(q, m);
    forall i, j | 0 <= i < |r| && 0 <= j < |r| && IsRead(r[i].ty) && IsWrite(r[j].ty) && r[i].hexAddr == r[j].hexAddr
      ensures i < j
    {
      var i', j' := if i < m then i else i + 1, if j < m then j else j + 1;
      assert r[i] == q[i'] && r[j] == q[j'];
    }
  }

  lemma RemovedNoWrite(qs: seq<seq<Command>>, i: int, m: int, addr: nat)
    requires NoWriteQueued(qs, addr) && 0 <= i < |qs| && 0 <= m < |qs[i]|
    ensures NoWriteQueued(qs[i := Removed(qs[i], m)], addr)
  {
    var qs': seq<seq<Command>> := qs[i := Removed(qs[i], m)];
    forall k, j | 0 <= k < |qs'| && 0 <= j < |qs'[k]| && IsWrite(qs'[k][j].ty) ensures qs'[k][j].hexAddr != addr {
      if k == i { assert qs'[k][j] == qs[i][if j < m then j else j + 1]; }
    }
  }

  /** Issuing an access takes its one waiting entry and its pending transactions together. */
  lemma IssueOneEach(s: Ctrl, s': Ctrl, cmd: Command, i: int, m: int)
    requires OneEach(s) && SingleWrites(s.pendingWr) && IsReadWrite(cmd.ty)
    requires 0 <= i < |s.cq.queues| && 0 <= m < |s.cq.queues[i]|
    requires s.cq.queues[i][m].hexAddr == cmd.hexAddr && s.cq.queues[i][m].ty == cmd.ty
    requires s' == s.(cq := s'.cq, ch := s'.ch, log := s'.log, returnQ := s'.returnQ, pendingRd := s'.pendingRd,
                      pendingWr := s'.pendingWr)
    requires s'.cq.queues == s.cq.queues[i := Removed(s.cq.queues[i], m)]
    requires s'.pendingRd == (if IsRead(cmd.ty) then Others(s.pendingRd, cmd.hexAddr) else s.pendingRd)
    requires s'.pendingWr == (if IsWrite(cmd.ty) then EraseOne(s.pendingWr, cmd.hexAddr) else s.pendingWr)
    ensures OneEach(s') && SingleWrites(s'.pendingWr)
    ensures Has(if IsWrite(cmd.ty) then s.pendingWr else s.pendingRd, cmd.hexAddr)
  {
    var key := Key(cmd.hexAddr, IsWrite(cmd.ty));
    CmdKeysRemove(s.cq.queues[i], m);
    QueueKeysUpdate(s.cq.queues, i, Removed(s.cq.queues[i], m));
    WaitingDrops(s, s', i, m);
    assert Waiting(s)[key] >= 1;
    forall k: Key
        ensures Waiting(s')[k] == if Has(if k.isWrite then s'.pendingWr else s'.pendingRd, k.addr) then 1 else 0 {
      OthersHas(s.pendingRd, cmd.hexAddr, k.addr);
      EraseOneHas(s.pendingWr, cmd.hexAddr, k.addr);
    }
    EraseOneHas(s.pendingWr, cmd.hexAddr, 0);
  }

  lemma WaitingDrops(s: Ctrl, s': Ctrl, i: int, m: int)
    requires 0 <= i < |s.cq.queues| && 0 <= m < |s.cq.queues[i]|
    requires s'.unified == s.unified && s'.readQ == s.readQ && s'.writeBuf == s.writeBuf
    requires s'.cq.queues == s.cq.queues[i := Removed(s.cq.queues[i], m)]
    ensures Waiting(s) == Waiting(s') + multiset{Key(s.cq.queues[i][m].hexAddr, IsWrite(s.cq.queues[i][m].ty))}
  {
    var key := multiset{Key(s.cq.queues[i][m].hexAddr, IsWrite(s.cq.queues[i][m].ty))};
    CmdKeysRemove(s.cq.queues[i], m);
    QueueKeysUpdate(s.cq.queues, i, Removed(s.cq.queues[i], m));
    Cancel(QueueKeys(s.cq.queues), QueueKeys(s'.cq.queues), multiset(CmdKeys(Removed(s.cq.queues[i], m))), key);
  }

  lemma Cancel(a: multiset<Key>, b: multiset<Key>, c: multiset<Key>, key: multiset<Key>)
    requires b + (c + key) == a + c
    ensures a == b + key
  {
    forall k: Key ensures a[k] == (b + key)[k] {
      assert (b + (c + key))[k] == (a + c)[k];
    }
  }

  lemma {:induction false} QueueKeysFind(qs: seq<seq<Command>>, key: Key) returns (k: int, j: int)
    requires key in QueueKeys(qs)
    ensures 0 <= k < |qs| && 0 <= j < |qs[k]| && key == Key(qs[k][j].hexAddr, IsWrite(qs[k][j].ty))
  {
    var n := |qs| - 1;
    if key in multiset(CmdKeys(qs[n])) {
      assert key in CmdKeys(qs[n]);
      k := n;
      j :| 0 <= j < |CmdKeys(qs[n])| && CmdKeys(qs[n])[j] == key;
    } else {
      k, j := QueueKeysFind(qs[..n], key);
    }
  }

  /** In unified mode a queued write whose address has a pending read stands behind that read. */
  lemma ReadAhead(cfg: Config, s: Ctrl, i: int, p: int)
    requires Books(cfg, s) && cfg.unifiedQueue
    requires 0 <= i < |s.cq.queues| && 0 <= p < |s.cq.queues[i]| && IsWrite(s.cq.queues[i][p].ty)
    requires Has(s.pendingRd, s.cq.queues[i][p].hexAddr)
    ensures HasRWDependency(s.cq.queues[i], p)
  {
    var queue := s.cq.queues[i];
    var key := Key(queue[p].hexAddr, false);
    assert Waiting(s)[key] == 1;
    assert key !in TransKeys(s.unified) by { hide Waiting; }
    assert TransKeys(s.readQ) == [] && TransKeys(s.writeBuf) == [];
    var k, j := QueueKeysFind(s.cq.queues, key);
    assert Fitting(cfg, queue[p], i) && Fitting(cfg, s.cq.queues[k][j], k);
    assert k == i && OrderedCmds(queue);
  }

  /** A write that the queues hand out has no read of its address waiting anywhere. */
  lemma NoReadOvertaken(cfg: Config, s: Ctrl, q: CmdQueue, cmd: Command, i: int, p: int, m: int)
    requires Core(cfg, s) && ServesQueue(cfg, s, q, cmd, i, p, m) && IsWrite(cmd.ty)
    ensures !Has(s.pendingRd, cmd.hexAddr)
  {
    hide Device, RefreshState, Placed, OneEach, NoneLost, HasRWDependency;
    if Has(s.pendingRd, cmd.hexAddr) && cfg.unifiedQueue { ReadAhead(cfg, s, i, p); }
  }

  lemma IssueOrdered(cfg: Config, s: Ctrl, s': Ctrl, i: int, m: int)
    requires Ordered(cfg, s) && 0 <= i < |s.cq.queues|
    requires s'.unified == s.unified
    requires forall a :: Has(s'.pendingRd, a) ==> Has(s.pendingRd, a)
    requires
      || s'.cq.queues == s.cq.queues
      || (0 <= m < |s.cq.queues[i]| && s'.cq.queues == s.cq.queues[i := Removed(s.cq.queues[i], m)])
    ensures Ordered(cfg, s')
  {
    if s'.cq.queues != s.cq.queues {
      if cfg.unifiedQueue {
        RemovedOrdered(s.cq.queues[i], m);
        forall u | 0 <= u < |s.unified| && !s.unified[u].isWrite
            ensures NoWriteQueued(s'.cq.queues, s.unified[u].addr) {
          RemovedNoWrite(s.cq.queues, i, m, s.unified[u].addr);
        }
      } else {
        forall a | Has(s'.pendingRd, a) ensures NoWriteQueued(s'.cq.queues, a) { RemovedNoWrite(s.cq.queues, i, m, a); }
      }
    }
  }

  lemma {:induction false} OthersSub(ts: seq<Transaction>, addr: nat)
    ensures forall i :: 0 <= i < |Others(ts, addr)| ==> Others(ts, addr)[i] in ts
  {
    if ts != [] { OthersSub(ts[1..], addr); }
  }

  ghost predicate Past(log: seq<Issued>, clk: int) { forall i :: 0 <= i < |log| ==> log[i].clk < clk }

  /** The controller after a command that is no access. */
  function AfterOther(s: Ctrl, q: CmdQueue, cmd: Command, ch: Channel): Ctrl {
    s.(cq := q, ch := ch, log := s.log + [Issued(s.clk, cmd)])
  }

  /** The controller after an access: its entry and its pending transactions are gone, and reads
      are due after the read delay. */
  function AfterAccess(cfg: Config, s: Ctrl, q: CmdQueue, cmd: Command): Ctrl {
    if IsRead(cmd.ty) then
      s.(cq := q, pendingRd := Others(s.pendingRd, cmd.hexAddr),
         returnQ := s.returnQ + Completed(Matching(s.pendingRd, cmd.hexAddr), s.clk + cfg.ReadDelay()))
    else s.(cq := q, pendingWr := EraseOne(s.pendingWr, cmd.hexAddr))
  }

  lemma IssueDevice(cfg: Config, s: Ctrl, q: CmdQueue, cmd: Command)
    requires Device(cfg, s) && Ready(cfg, s.ch, cmd, s.clk) && Past(s.log, s.clk)
    requires QueuesShaped(cfg, q) && q.clk == s.clk
    requires if IsRefresh(cmd.ty) then s.ch.refreshQ != [] && cmd == s.ch.refreshQ[0] && !q.inRef && q.refIdx == {}
             else RefreshState(cfg, s.ch, q)
    ensures Update(cfg, s.ch, cmd, s.clk).Some?
    ensures Device(cfg, AfterOther(s, q, cmd, Update(cfg, s.ch, cmd, s.clk).value))
  {
    UpdateTracks(cfg, s.ch, cmd, s.clk, s.log);
    if IsRefresh(cmd.ty) { assert Update(cfg, s.ch, cmd, s.clk).value.refreshQ == s.ch.refreshQ[1..]; }
  }

  lemma TicketsDone(ts: seq<Transaction>, clk: int)
    ensures Tickets(Completed(ts, clk)) == Tickets(ts)
  {
  }

  lemma AccessNoneLost(cfg: Config, s: Ctrl, q: CmdQueue, cmd: Command)
    requires NoneLost(s)
    ensures NoneLost(AfterAccess(cfg, s, q, cmd))
  {
    hide Tickets, Completed, Matching, Others, EraseOne;
    if IsRead(cmd.ty) {
      var due := Matching(s.pendingRd, cmd.hexAddr);
      var done := Completed(due, s.clk + cfg.ReadDelay());
      TicketsDone(due, s.clk + cfg.ReadDelay());
      TicketsSplit(s.pendingRd, cmd.hexAddr);
      TicketsAdd(s.returnQ, done);
      MoveOver(multiset(Tickets(due)), multiset(Tickets(Others(s.pendingRd, cmd.hexAddr))),
               multiset(Tickets(s.returnQ)), s.returned);
    }
  }

  lemma MoveOver(due: multiset<Ticket>, rest: multiset<Ticket>, out: multiset<Ticket>, done: multiset<Ticket>)
    ensures (due + rest) + out + done == rest + (out + due) + done
  {
  }

  lemma AccessSides(cfg: Config, s: Ctrl, q: CmdQueue, cmd: Command)
    requires Sides(cfg, s)
    ensures Sides(cfg, AfterAccess(cfg, s, q, cmd))
  {
    OthersSub(s.pendingRd, cmd.hexAddr);
    EraseOneSub(s.pendingWr, cmd.hexAddr);
  }

  lemma AccessOrdered(cfg: Config, s: Ctrl, q: CmdQueue, cmd: Command, i: int, m: int)
    requires Ordered(cfg, s) && 0 <= i < |s.cq.queues| && 0 <= m < |s.cq.queues[i]|
    requires q.queues == s.cq.queues[i := Removed(s.cq.queues[i], m)]
    ensures Ordered(cfg, AfterAccess(cfg, s, q, cmd))
  {
    var s' := AfterAccess(cfg, s, q, cmd);
    forall a | Has(s'.pendingRd, a) ensures Has(s.pendingRd, a) { OthersHas(s.pendingRd, cmd.hexAddr, a); }
    IssueOrdered(cfg, s, s', i, m);
  }

  lemma AccessBooks(cfg: Config, s: Ctrl, q: CmdQueue, cmd: Command, i: int, p: int, m: int)
    requires Books(cfg, s) && cfg.Banks() != 0 && QueuesShaped(cfg, s.cq)
    requires IsReadWrite(cmd.ty) && ServesQueue(cfg, s, q, cmd, i, p, m)
    ensures Books(cfg, AfterAccess(cfg, s, q, cmd))
    ensures Has(if IsWrite(cmd.ty) then s.pendingWr else s.pendingRd, cmd.hexAddr)
  {
    hide RefreshState, StepOf, QueuesShaped, NoneLost, Sides, Ordered, OneEach, SingleWrites, Placed;
    AccessNoneLost(cfg, s, q, cmd);
    AccessSides(cfg, s, q, cmd);
    AccessOrdered(cfg, s, q, cmd, i, m);
    IssueOneEach(s, AfterAccess(cfg, s, q, cmd), cmd, i, m);
    RemovedPlaced(cfg, s.cq, i, m);
  }

  /** What the command half of a cycle leaves behind, case by case. */
  ghost predicate StepForm(cfg: Config, s: Ctrl, s': Ctrl, q: CmdQueue, r: Pick)
    requires Shaped(cfg, s.ch)
  {
    match r
    case Abort => false
    case Wait => s' == s.(cq := q)
    case Issue(cmd) =>
      && Ready(cfg, s.ch, cmd, s.clk)
      && Update(cfg, s.ch, cmd, s.clk).Some?
      && s' == AfterOther(if IsReadWrite(cmd.ty) then AfterAccess(cfg, s, q, cmd)
                            else s, q, cmd, Update(cfg, s.ch, cmd, s.clk).value)
  }

  lemma IssueForm(cfg: Config, s: Ctrl, q: CmdQueue, cmd: Command)
    requires Shaped(cfg, s.ch) && Ready(cfg, s.ch, cmd, s.clk)
    requires IsReadWrite(cmd.ty) ==> Has(if IsWrite(cmd.ty) then s.pendingWr else s.pendingRd, cmd.hexAddr)
    ensures IssueCommand(cfg, s.(cq := q), cmd).Some?
    ensures StepForm(cfg, s, IssueCommand(cfg, s.(cq := q), cmd).value, q, Issue(cmd))
  {
    hide Update, StatesAfter, Ready, Shaped;
    UpdateShaped(cfg, s.ch, cmd, s.clk);
  }

  /** Any access the controller issues has its transactions pending. */
  lemma IssuedPending(cfg: Config, s: Ctrl, q: CmdQueue, cmd: Command, i: int, p: int, m: int)
    requires Books(cfg, s) && cfg.Banks() != 0 && QueuesShaped(cfg, s.cq)
    requires ServesQueue(cfg, s, q, cmd, i, p, m)
    ensures IsReadWrite(cmd.ty) ==> Has(if IsWrite(cmd.ty) then s.pendingWr else s.pendingRd, cmd.hexAddr)
  {
    if IsReadWrite(cmd.ty) { AccessBooks(cfg, s, q, cmd, i, p, m); }
  }

  lemma CoreShapely(cfg: Config, s: Ctrl)
    requires Core(cfg, s)
    ensures Shapely(cfg, s) && Shaped(cfg, s.ch)
  {
    hide Books, TraceOk, RowsMatch, TimersMatch, WindowsMatch;
  }

  /** The command half of a cycle never exits. */
  lemma StepRuns(cfg: Config, s: Ctrl)
    requires Core(cfg, s)
    ensures Shapely(cfg, s) && IssueStep(cfg, s).Some?
    ensures StepForm(cfg, s, IssueStep(cfg, s).value, Choose(cfg, s).0, Choose(cfg, s).1)
  {
    CoreShapely(cfg, s);
    hide Device, Books, Choose, RefreshState, StepOf, IssueCommand, Update, Shapely;
    ChosenPending(cfg, s);
    var (q, r) := Choose(cfg, s);
    if r.Issue? { IssueForm(cfg, s, q, r.cmd); }
  }

  /** The command chosen is ready, and an access has its transaction pending. */
  lemma ChosenPending(cfg: Config, s: Ctrl)
    requires Core(cfg, s)
    ensures Shapely(cfg, s) && Shaped(cfg, s.ch)
    ensures var (q, r) := Choose(cfg, s);
      && r != Abort
      && (r.Issue? ==>
            && Ready(cfg, s.ch, r.cmd, s.clk)
            && (IsReadWrite(r.cmd.ty) ==> Has(if IsWrite(r.cmd.ty) then s.pendingWr else s.pendingRd, r.cmd.hexAddr)))
  {
    CoreShapely(cfg, s);
    var i, p, m := ChooseOk(cfg, s);
    var (q, r) := Choose(cfg, s);
    hide Choose, RefreshState, Update, Shapely, Ready, Device, Books;
    if r.Issue? && ServesQueue(cfg, s, q, r.cmd, i, p, m) { IssuedPending(cfg, s, q, r.cmd, i, p, m); }
  }

  lemma StepDevice(cfg: Config, s: Ctrl, s': Ctrl)
    requires Core(cfg, s) && Past(s.log, s.clk) && Shapely(cfg, s)
    requires StepForm(cfg, s, s', Choose(cfg, s).0, Choose(cfg, s).1)
    ensures Device(cfg, s')
  {
    hide Choose, Books, Tracks, RefreshState, StepOf, Update, Shapely, Ready;
    var i, p, m := ChooseOk(cfg, s);
    var (q, r) := Choose(cfg, s);
    if r.Issue? {
      ServedShaped(cfg, s, q, r.cmd, i, p, m);
      hide QueuesShaped;
      IssueDevice(cfg, s, q, r.cmd);
    }
  }

  lemma ServedShaped(cfg: Config, s: Ctrl, q: CmdQueue, cmd: Command, i: int, p: int, m: int)
    requires Core(cfg, s) && 0 <= q.queueIdx < NumQueues(cfg)
    requires ServesRefresh(cfg, s, q, cmd) || ServesQueue(cfg, s, q, cmd, i, p, m)
    ensures QueuesShaped(cfg, q)
    ensures IsRefresh(cmd.ty) ==> ServesRefresh(cfg, s, q, cmd)
  {
    hide Choose, Tracks, RefreshState, Ready;
    if ServesQueue(cfg, s, q, cmd, i, p, m) && IsReadWrite(cmd.ty) { RemovedPlaced(cfg, s.cq, i, m); }
  }

  lemma StepBooks(cfg: Config, s: Ctrl, s': Ctrl)
    requires Core(cfg, s) && Shapely(cfg, s)
    requires StepForm(cfg, s, s', Choose(cfg, s).0, Choose(cfg, s).1)
    ensures Books(cfg, s')
  {
    hide Choose, Books, Tracks, RefreshState, StepOf, Update, Shapely, QueuesShaped, Ready;
    var i, p, m := ChooseOk(cfg, s);
    var (q, r) := Choose(cfg, s);
    if r.Issue? && IsReadWrite(r.cmd.ty) {
      AccessBooks(cfg, s, q, r.cmd, i, p, m);
      BooksFrame(cfg, AfterAccess(cfg, s, q, r.cmd), s');
    } else {
      BooksFrame(cfg, s, s');
    }
  }

  // ---------------------------------------------------------------- scheduling a transaction

  /** The queues after transaction `t` became a command at the end of its queue. */
  function Pushed(cfg: Config, qs: seq<seq<Command>>, t: Transaction): seq<seq<Command>>
    requires AddressMap.ValidMapping(cfg) && 0 <= QueueIndex(cfg, TransToCommand(cfg, t).addr) < |qs|
  {
    var cmd := TransToCommand(cfg, t);
    var k := QueueIndex(cfg, cmd.addr);
    qs[k := qs[k] + [cmd]]
  }

  lemma PushedPlaced(cfg: Config, qs: seq<seq<Command>>, t: Transaction)
    requires ValidConfig(cfg) && Placed(cfg, qs) && |qs| == NumQueues(cfg)
    requires forall i :: 0 <= i < |qs| ==> AllInBanks(cfg, qs[i])
    ensures 0 <= QueueIndex(cfg, TransToCommand(cfg, t).addr) < |qs|
    ensures Placed(cfg, Pushed(cfg, qs, t))
    ensures forall i :: 0 <= i < |qs| ==> AllInBanks(cfg, Pushed(cfg, qs, t)[i])
    ensures QueueKeys(Pushed(cfg, qs, t)) == QueueKeys(qs) + multiset{Key(t.addr, t.isWrite)}
  {
    var cmd := TransToCommand(cfg, t);
    AddressMap.InRange(cfg, t.addr);
    IndexOk(cfg, cmd.addr);
    var k := QueueIndex(cfg, cmd.addr);
    hide AddressMap.AddressMapping, AddressMap.ValidMapping, QueueIndex;
    assert Fitting(cfg, cmd, k);
    PushPlaces(cfg, qs, k, cmd);
    QueueKeysUpdate(qs, k, qs[k] + [cmd]);
    CmdKeysAdd(qs[k], cmd);
    CancelAdd(QueueKeys(Pushed(cfg, qs, t)), QueueKeys(qs), multiset(CmdKeys(qs[k])), multiset{Key(t.addr, t.isWrite)});
  }

  lemma PushPlaces(cfg: Config, qs: seq<seq<Command>>, k: int, cmd: Command)
    requires AddressMap.ValidMapping(cfg) && Placed(cfg, qs) && 0 <= k < |qs|
    requires forall i :: 0 <= i < |qs| ==> AllInBanks(cfg, qs[i])
    requires Fitting(cfg, cmd, k) && ValidBank(cfg, BankOf(cmd.addr))
    ensures var qs' := qs[k := qs[k] + [cmd]];
      Placed(cfg, qs') && forall i :: 0 <= i < |qs'| ==> AllInBanks(cfg, qs'[i])
  {
    hide Fitting;
    var qs' := qs[k := qs[k] + [cmd]];
    forall i, j | 0 <= i < |qs'| && 0 <= j < |qs'[i]|
        ensures Fitting(cfg, qs'[i][j], i) && ValidBank(cfg, BankOf(qs'[i][j].addr)) {
      assert AllInBanks(cfg, qs[i]);
      if j < |qs[i]| { assert Fitting(cfg, qs[i][j], i); }
    }
  }

  lemma CancelAdd(a: multiset<Key>, b: multiset<Key>, c: multiset<Key>, key: multiset<Key>)
    requires a + c == b + (c + key)
    ensures a == b + key
  {
    forall k: Key ensures a[k] == (b + key)[k] {
      assert (a + c)[k] == (b + (c + key))[k];
    }
  }

  /** Taking transaction `n` off the queue it waits in and pushing its command. */
  function Moved(cfg: Config, s: Ctrl, ts: seq<Transaction>, n: int, d: int): Ctrl
    requires AddressMap.ValidMapping(cfg) && 0 <= n < |ts|
    requires 0 <= QueueIndex(cfg, TransToCommand(cfg, ts[n]).addr) < |s.cq.queues|
  {
    var s1 := s.(draining := d, cq := s.cq.(queues := Pushed(cfg, s.cq.queues, ts[n])));
    if cfg.unifiedQueue then s1.(unified := Removed(ts, n))
    else if ts[n].isWrite then s1.(writeBuf := Removed(ts, n))
    else s1.(readQ := Removed(ts, n))
  }

  lemma MovedWaiting(cfg: Config, s: Ctrl, ts: seq<Transaction>, n: int, d: int)
    requires ValidConfig(cfg) && Placed(cfg, s.cq.queues) && QueuesShaped(cfg, s.cq) && 0 <= n < |ts|
    requires ts == if cfg.unifiedQueue then s.unified else if ts[n].isWrite then s.writeBuf else s.readQ
    ensures 0 <= QueueIndex(cfg, TransToCommand(cfg, ts[n]).addr) < |s.cq.queues|
    ensures Waiting(Moved(cfg, s, ts, n, d)) == Waiting(s)
  {
    PushedPlaced(cfg, s.cq.queues, ts[n]);
    TransKeysRemove(ts, n);
    hide AddressMap.AddressMapping, AddressMap.ValidMapping, QueueIndex, Pushed, Placed, QueuesShaped, QueueKeys;
    var key := multiset{Key(ts[n].addr, ts[n].isWrite)};
    var a, b := multiset(TransKeys(ts)), multiset(TransKeys(Removed(ts, n)));
    assert a == b + key;
  }

  lemma PushedOrdered(cfg: Config, qs: seq<seq<Command>>, t: Transaction)
    requires ValidConfig(cfg) && 0 <= QueueIndex(cfg, TransToCommand(cfg, t).addr) < |qs|
    requires forall k :: 0 <= k < |qs| ==> OrderedCmds(qs[k])
    requires !t.isWrite ==> NoWriteQueued(qs, t.addr)
    ensures forall k :: 0 <= k < |qs| ==> OrderedCmds(Pushed(cfg, qs, t)[k])
  {
    var cmd := TransToCommand(cfg, t);
    var k := QueueIndex(cfg, cmd.addr);
    assert cmd.hexAddr == t.addr && IsWrite(cmd.ty) == t.isWrite && IsRead(cmd.ty) == !t.isWrite;
    hide AddressMap.AddressMapping, AddressMap.ValidMapping, QueueIndex, TransToCommand;
    var q := qs[k] + [cmd];
    assert OrderedCmds(qs[k]);
    forall i, j | 0 <= i < |q| && 0 <= j < |q| && IsRead(q[i].ty) && IsWrite(q[j].ty) && q[i].hexAddr == q[j].hexAddr
        ensures i < j {
      assert j < |qs[k]| ==> q[j] == qs[k][j];
    }
  }

  lemma PushedNoWrite(cfg: Config, qs: seq<seq<Command>>, t: Transaction, a: nat)
    requires ValidConfig(cfg) && 0 <= QueueIndex(cfg, TransToCommand(cfg, t).addr) < |qs|
    requires NoWriteQueued(qs, a) && !(t.isWrite && t.addr == a)
    ensures NoWriteQueued(Pushed(cfg, qs, t), a)
  {
    var cmd := TransToCommand(cfg, t);
    assert cmd.hexAddr == t.addr && IsWrite(cmd.ty) == t.isWrite;
    hide AddressMap.AddressMapping, AddressMap.ValidMapping, QueueIndex, TransToCommand;
  }

  lemma RemovedOrderedTrans(ts: seq<Transaction>, n: int)
    requires OrderedTrans(ts) && 0 <= n < |ts|
    ensures OrderedTrans(Removed(ts, n))
  {
    var r: seq<Transaction> := Removed(ts, n);
    forall i, j | 0 <= i < |r| && 0 <= j < |r| && !r[i].isWrite && r[j].isWrite && r[i].addr == r[j].addr
        ensures i < j {
      var i', j' := if i < n then i else i + 1, if j < n then j else j + 1;
      assert r[i] == ts[i'] && r[j] == ts[j'];
    }
  }

  /** The first transaction with room moves. In unified mode an older read of its address would
      have had the same room; in split mode a write moves only when no read of it is pending. */
  lemma MovedOrdered(cfg: Config, s: Ctrl, ts: seq<Transaction>, n: int, d: int)
    requires ValidConfig(cfg) && Ordered(cfg, s) && 0 <= n < |ts|
    requires n == FirstAccepted(cfg, s.cq, ts)
    requires 0 <= QueueIndex(cfg, TransToCommand(cfg, ts[n]).addr) < |s.cq.queues|
    requires cfg.unifiedQueue ==> ts == s.unified
    requires !cfg.unifiedQueue && ts[n].isWrite ==> !Has(s.pendingRd, ts[n].addr)
    ensures Ordered(cfg, Moved(cfg, s, ts, n, d))
  {
    hide Accepts, FirstAccepted, QueueIndex, TransToCommand, OrderedCmds, OrderedTrans, AddressMap.ValidMapping,
         RefreshInterval;
    var t := ts[n];
    var s' := Moved(cfg, s, ts, n, d);
    if cfg.unifiedQueue {
      NoReadLeft(cfg, s.cq, ts, n);
      RemovedOrderedTrans(ts, n);
      PushedOrdered(cfg, s.cq.queues, t);
      forall i | 0 <= i < |s'.unified| && !s'.unified[i].isWrite
          ensures NoWriteQueued(s'.cq.queues, s'.unified[i].addr) {
        var i' := if i < n then i else i + 1;
        assert s'.unified[i] == ts[i'];
        PushedNoWrite(cfg, s.cq.queues, t, ts[i'].addr);
      }
    } else {
      forall a | Has(s'.pendingRd, a) ensures NoWriteQueued(s'.cq.queues, a) { PushedNoWrite(cfg, s.cq.queues, t, a); }
    }
  }

  /** When a write moves, no read of its address stays behind in the queue. */
  lemma NoReadLeft(cfg: Config, q: CmdQueue, ts: seq<Transaction>, n: int)
    requires AddressMap.ValidMapping(cfg) && OrderedTrans(ts) && 0 <= n < |ts| && n == FirstAccepted(cfg, q, ts)
    ensures forall i :: 0 <= i < |ts| && i != n && !ts[i].isWrite ==> !(ts[n].isWrite && ts[i].addr == ts[n].addr)
  {
    hide AddressMap.AddressMapping, AddressMap.ValidMapping, QueueIndex, FirstAccepted;
    assert forall i :: 0 <= i < n && ts[i].addr == ts[n].addr ==> Accepts(cfg, q, ts[i]);
  }

  lemma ScheduleForm(cfg: Config, s: Ctrl) returns (ts: seq<Transaction>, n: int, d: int, moved: bool)
    requires ValidConfig(cfg) && QueuesShaped(cfg, s.cq) && Placed(cfg, s.cq.queues) && Sides(cfg, s)
    ensures 0 <= d <= |s.writeBuf|
    ensures !moved ==> ScheduleTransaction(cfg, s) == s.(draining := d)
    ensures moved ==>
      && 0 <= n < |ts| && n == FirstAccepted(cfg, s.cq, ts)
      && ts == (if cfg.unifiedQueue then s.unified else if ts[n].isWrite then s.writeBuf else s.readQ)
      && (!cfg.unifiedQueue && ts[n].isWrite ==> !Has(s.pendingRd, ts[n].addr) && d < |s.writeBuf|)
      && 0 <= QueueIndex(cfg, TransToCommand(cfg, ts[n]).addr) < |s.cq.queues|
      && ScheduleTransaction(cfg, s) == Moved(cfg, s, ts, n, d)
  {
    d := Draining(cfg, s);
    ts := if cfg.unifiedQueue then s.unified else if d > 0 then s.writeBuf else s.readQ;
    n := FirstAccepted(cfg, s.cq, ts);
    hide AddressMap.AddressMapping, AddressMap.ValidMapping, TransToCommand, Placed, QueuesShaped;
    moved := n < |ts|;
    if n < |ts| && !cfg.unifiedQueue && ts[n].isWrite {
      if Has(s.pendingRd, ts[n].addr) { moved, d := false, 0; } else { d := d - 1; }
    }
  }

  lemma MovedSides(cfg: Config, s: Ctrl, ts: seq<Transaction>, n: int, d: int)
    requires AddressMap.ValidMapping(cfg) && Sides(cfg, s) && 0 <= n < |ts| && 0 <= d <= |s.writeBuf|
    requires 0 <= QueueIndex(cfg, TransToCommand(cfg, ts[n]).addr) < |s.cq.queues|
    requires ts == if cfg.unifiedQueue then s.unified else if ts[n].isWrite then s.writeBuf else s.readQ
    requires !cfg.unifiedQueue && ts[n].isWrite ==> d < |s.writeBuf|
    ensures Sides(cfg, Moved(cfg, s, ts, n, d))
  {
    hide AddressMap.ValidMapping, TransToCommand, QueueIndex, Pushed;
    var r: seq<Transaction> := Removed(ts, n);
    assert forall i :: 0 <= i < |r| ==> r[i] in ts;
  }

  lemma MovedDevice(cfg: Config, s: Ctrl, ts: seq<Transaction>, n: int, d: int)
    requires Device(cfg, s) && Placed(cfg, s.cq.queues) && 0 <= n < |ts|
    ensures 0 <= QueueIndex(cfg, TransToCommand(cfg, ts[n]).addr) < |s.cq.queues|
    ensures Device(cfg, Moved(cfg, s, ts, n, d))
  {
    hide Tracks, ValidConfig, TransToCommand, QueueIndex, Placed, AddressMap.ValidMapping;
    PushedPlaced(cfg, s.cq.queues, ts[n]);
  }

  lemma MovedBooks(cfg: Config, s: Ctrl, ts: seq<Transaction>, n: int, d: int)
    requires ValidConfig(cfg) && QueuesShaped(cfg, s.cq) && Books(cfg, s) && 0 <= n < |ts|
    requires n == FirstAccepted(cfg, s.cq, ts)
    requires ts == if cfg.unifiedQueue then s.unified else if ts[n].isWrite then s.writeBuf else s.readQ
    requires !cfg.unifiedQueue && ts[n].isWrite ==> !Has(s.pendingRd, ts[n].addr) && d < |s.writeBuf|
    requires 0 <= d <= |s.writeBuf|
    ensures 0 <= QueueIndex(cfg, TransToCommand(cfg, ts[n]).addr) < |s.cq.queues|
    ensures Books(cfg, Moved(cfg, s, ts, n, d))
  {
    hide ValidConfig, TransToCommand, QueueIndex, Placed, AddressMap.ValidMapping, Ordered, Sides, Has, Waiting,
         SingleWrites, FirstAccepted, Pushed;
    PushedPlaced(cfg, s.cq.queues, ts[n]);
    MovedWaiting(cfg, s, ts, n, d);
    MovedOrdered(cfg, s, ts, n, d);
    MovedSides(cfg, s, ts, n, d);
  }

  /** Scheduling keeps the invariant. */
  lemma ScheduleCore(cfg: Config, s: Ctrl)
    requires Core(cfg, s)
    ensures Core(cfg, ScheduleTransaction(cfg, s))
  {
    hide Tracks, RefreshState, ValidConfig, TransToCommand, QueueIndex, Placed, AddressMap.ValidMapping, QueuesShaped,
         Ordered, OneEach, NoneLost, Has, SingleWrites, FirstAccepted, Moved, ScheduleTransaction;
    var ts, n, d, moved := ScheduleForm(cfg, s);
    if moved {
      hide Sides;
      MovedDevice(cfg, s, ts, n, d);
      MovedBooks(cfg, s, ts, n, d);
    } else {
      StillBooks(cfg, s, d);
    }
  }

  lemma StillBooks(cfg: Config, s: Ctrl, d: int)
    requires Books(cfg, s) && 0 <= d <= |s.writeBuf|
    ensures Books(cfg, s.(draining := d))
  {
    assert Waiting(s.(draining := d)) == Waiting(s);
  }

  // ---------------------------------------------------------------- transactions in and out

  lemma AddOneEach(s: Ctrl, s': Ctrl, t: Transaction)
    requires OneEach(s) && SingleWrites(s.pendingWr) && !Has(if t.isWrite then s.pendingWr else s.pendingRd, t.addr)
    requires Waiting(s') == Waiting(s) + multiset{Key(t.addr, t.isWrite)}
    requires s'.pendingRd == if t.isWrite then s.pendingRd else s.pendingRd + [t]
    requires s'.pendingWr == if t.isWrite then s.pendingWr + [t] else s.pendingWr
    ensures OneEach(s') && SingleWrites(s'.pendingWr)
  {
    hide Waiting;
    forall k: Key
        ensures Waiting(s')[k] == if Has(if k.isWrite then s'.pendingWr else s'.pendingRd, k.addr) then 1 else 0 {
      HasAdd(s.pendingRd, t, k.addr);
      HasAdd(s.pendingWr, t, k.addr);
    }
  }

  lemma HasAdd(ts: seq<Transaction>, t: Transaction, a: nat)
    ensures Has(ts + [t], a) <==> Has(ts, a) || t.addr == a
  {
    var all := ts + [t];
    if Has(ts, a) {
      var i :| 0 <= i < |ts| && ts[i].addr == a;
      assert all[i].addr == a;
    }
    assert all[|ts|] == t;
  }

  lemma AddWaiting(cfg: Config, s: Ctrl, addr: nat, isWrite: bool)
    ensures var s' := AddTransaction(cfg, s, addr, isWrite);
      Waiting(s') == Waiting(s)
        + if !Has(s.pendingWr, addr) && (isWrite || !Has(s.pendingRd, addr)) then multiset{Key(addr, isWrite)}
          else multiset{}
  {
    var t := Transaction(addr, isWrite, s.clk, 0);
    TransKeysAdd(s.unified, t);
    TransKeysAdd(s.writeBuf, t);
    TransKeysAdd(s.readQ, t);
    hide Has, QueueKeys, TransKeys;
  }

  lemma AddNoneLost(cfg: Config, s: Ctrl, addr: nat, isWrite: bool)
    requires NoneLost(s)
    ensures NoneLost(AddTransaction(cfg, s, addr, isWrite))
  {
    var t := Transaction(addr, isWrite, s.clk, 0);
    var done := t.(complete := s.clk + 1);
    TicketsAdd(s.pendingRd, [t]);
    TicketsAdd(s.returnQ, [done]);
    assert Tickets([t]) == [Ticketed(t)] && Tickets([done]) == [Ticketed(t)];
    Regroup(multiset(Tickets(s.pendingRd)), multiset(Tickets(s.returnQ)), s.returned, multiset{Ticketed(t)});
    hide AddTransaction, Tickets;
    AddPlace(cfg, s, addr, isWrite);
  }

  /** A new transaction is due at once or becomes a pending read. */
  lemma AddPlace(cfg: Config, s: Ctrl, addr: nat, isWrite: bool)
    ensures var s' := AddTransaction(cfg, s, addr, isWrite); var t := Transaction(addr, isWrite, s.clk, 0);
      && s'.accepted == s.accepted + [Ticketed(t)] && s'.returned == s.returned
      && (|| (s'.pendingRd == s.pendingRd && s'.returnQ == s.returnQ + [t.(complete := s.clk + 1)])
          || (s'.pendingRd == s.pendingRd + [t] && s'.returnQ == s.returnQ))
  {
    hide Has;
  }

  lemma Regroup(p: multiset<Ticket>, r: multiset<Ticket>, d: multiset<Ticket>, x: multiset<Ticket>)
    ensures (p + r + d) + x == (p + x) + r + d && (p + r + d) + x == p + (r + x) + d
    ensures (p + r + d) + x == p + r + (d + x)
  {
  }

  /** A new write goes behind everything; a new read of an address with a waiting write is
      answered at once and waits nowhere. */
  lemma AddOrdered(cfg: Config, s: Ctrl, addr: nat, isWrite: bool)
    requires Books(cfg, s)
    ensures Ordered(cfg, AddTransaction(cfg, s, addr, isWrite))
  {
    var s' := AddTransaction(cfg, s, addr, isWrite);
    if !isWrite && !Has(s.pendingWr, addr) {
      NothingQueued(cfg, s, addr);
      forall a | Has(s'.pendingRd, a) && !cfg.unifiedQueue ensures NoWriteQueued(s.cq.queues, a) {
        HasAdd(s.pendingRd, Transaction(addr, false, s.clk, 0), a);
      }
      if cfg.unifiedQueue && !Has(s.pendingRd, addr) {
        assert OrderedTrans(s'.unified) by {
          hide Waiting, Has;
          assert forall j :: 0 <= j < |s.unified| && s.unified[j].isWrite ==> s.unified[j].addr != addr;
        }
      }
    }
  }

  /** An address without a pending write waits as a write nowhere. */
  lemma NothingQueued(cfg: Config, s: Ctrl, addr: nat)
    requires OneEach(s) && !Has(s.pendingWr, addr)
    ensures NoWriteQueued(s.cq.queues, addr)
    ensures forall j :: 0 <= j < |s.unified| && s.unified[j].isWrite ==> s.unified[j].addr != addr
  {
    var key := Key(addr, true);
    assert Waiting(s)[key] == 0;
    forall k, j | 0 <= k < |s.cq.queues| && 0 <= j < |s.cq.queues[k]| && IsWrite(s.cq.queues[k][j].ty)
      ensures s.cq.queues[k][j].hexAddr != addr {
      QueueKeysHave(s.cq.queues, k, j);
    }
    forall j | 0 <= j < |s.unified| && s.unified[j].isWrite ensures s.unified[j].addr != addr {
      assert TransKeys(s.unified)[j] in multiset(TransKeys(s.unified));
    }
  }

  lemma {:induction false} QueueKeysHave(qs: seq<seq<Command>>, k: int, j: int)
    requires 0 <= k < |qs| && 0 <= j < |qs[k]|
    ensures Key(qs[k][j].hexAddr, IsWrite(qs[k][j].ty)) in QueueKeys(qs)
  {
    var n := |qs| - 1;
    if k < n { QueueKeysHave(qs[..n], k, j); } else { assert CmdKeys(qs[k])[j] in multiset(CmdKeys(qs[k])); }
  }

  lemma AddBooksOne(cfg: Config, s: Ctrl, addr: nat, isWrite: bool)
    requires OneEach(s) && SingleWrites(s.pendingWr)
    ensures var s' := AddTransaction(cfg, s, addr, isWrite); OneEach(s') && SingleWrites(s'.pendingWr)
  {
    var t := Transaction(addr, isWrite, s.clk, 0);
    var s' := AddTransaction(cfg, s, addr, isWrite);
    AddWaiting(cfg, s, addr, isWrite);
    hide Waiting;
    if !Has(s.pendingWr, addr) && (isWrite || !Has(s.pendingRd, addr)) {
      AddOneEach(s, s', t);
    } else {
      forall k: Key
          ensures Waiting(s')[k] == if Has(if k.isWrite then s'.pendingWr else s'.pendingRd, k.addr) then 1 else 0 {
        HasAdd(s.pendingRd, t, k.addr);
      }
    }
  }

  /** Accepting a transaction keeps the invariant. */
  lemma AddCore(cfg: Config, s: Ctrl, addr: nat, isWrite: bool)
    requires Core(cfg, s)
    ensures Core(cfg, AddTransaction(cfg, s, addr, isWrite))
  {
    AddBooksOne(cfg, s, addr, isWrite);
    AddNoneLost(cfg, s, addr, isWrite);
    AddOrdered(cfg, s, addr, isWrite);
    hide Tracks, RefreshState, ValidConfig, Placed, AddressMap.ValidMapping, QueuesShaped, Ordered, OneEach, NoneLost,
         Has, SingleWrites;
  }

  lemma ReturnNoneLost(s: Ctrl, clk: int)
    requires NoneLost(s)
    ensures NoneLost(ReturnDoneTrans(s, clk).0)
  {
    var n := FirstDone(s.returnQ, clk);
    if n < |s.returnQ| {
      var left := multiset(Tickets(Removed(s.returnQ, n)));
      TicketsRemove(s.returnQ, n);
      Regroup(multiset(Tickets(s.pendingRd)), left, s.returned, multiset{Ticketed(s.returnQ[n])});
    }
  }

  /** Nor do they, but for the count of tickets, look at what was returned. */
  lemma ReturnFrame(cfg: Config, s: Ctrl, q: seq<Transaction>, r: multiset<Ticket>)
    requires Books(cfg, s) && NoneLost(s.(returnQ := q, returned := r))
    ensures Books(cfg, s.(returnQ := q, returned := r))
  {
    hide Has, OrderedTrans, OrderedCmds, NoWriteQueued, TransToCommand, Tickets, QueueKeys;
    assert Waiting(s.(returnQ := q, returned := r)) == Waiting(s);
  }

  /** Calling back a finished transaction keeps the invariant. */
  lemma ReturnCore(cfg: Config, s: Ctrl, clk: int)
    requires Core(cfg, s)
    ensures Core(cfg, ReturnDoneTrans(s, clk).0)
  {
    assert NoneLost(s);
    hide Books, Tracks, RefreshState, QueuesShaped, ValidConfig, FirstDone, Removed, NoneLost;
    ReturnNoneLost(s, clk);
    var s' := ReturnDoneTrans(s, clk).0;
    ReturnFrame(cfg, s, s'.returnQ, s'.returned);
  }

  predicate GenOk(cfg: Config, g: RefreshGen) {
    0 <= g.nextRank < cfg.ranks && 0 <= g.nextBg < cfg.bankgroups && 0 <= g.nextBank < cfg.banksPerGroup
  }

  /** A refresh insertion goes to the back of the waiting queue and keeps the invariant. */
  lemma RefreshTickCore(cfg: Config, s: Ctrl)
    requires Core(cfg, s) && GenOk(cfg, s.ref)
    ensures Core(cfg, RefreshTick(cfg, s)) && GenOk(cfg, RefreshTick(cfg, s).ref)
  {
    var s' := RefreshTick(cfg, s);
    BooksFrame(cfg, s, s');
    assert Device(cfg, s') by {
      hide Books, TraceOk;
      assert Addressed(cfg, RefreshCommand(cfg, s.ref));
    }
    hide Books, Device;
  }
}
