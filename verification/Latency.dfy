/** When transactions are called back: writes and forwarded reads a cycle after they arrived, other
    reads the read delay after a read command for their address that went out since they arrived. */
module Latency {
  import opened Common
  import opened Channels
  import opened ChannelProofs
  import opened CommandQueues
  import opened Controllers
  import opened ControllerProofs
  import opened Trace
  import opened Runs
  import opened Progress
  import opened Options
  import AddressMap

  predicate Reads(e: Issued, addr: nat) { IsRead(e.cmd.ty) && e.cmd.hexAddr == addr }

  predicate Writes(e: Issued, addr: nat) { IsWrite(e.cmd.ty) && e.cmd.hexAddr == addr }

  /** No write of `addr` went out in the cycles from `from` up to, and without, `to`. */
  ghost predicate NoWriteIn(log: seq<Issued>, addr: nat, from: int, to: int) {
    forall j :: 0 <= j < |log| && Writes(log[j], addr) ==> log[j].clk < from || to <= log[j].clk
  }

  /** Write `w` is of the address of `t`, was accepted no later, and its command had not gone out when
      `t` arrived. */
  ghost predicate ForwardedBy(t: Transaction, w: Ticket, log: seq<Issued>) {
    w.isWrite && w.addr == t.addr && w.added <= t.added && NoWriteIn(log, t.addr, w.added, t.added)
  }

  ghost predicate Forwarded(t: Transaction, accepted: seq<Ticket>, log: seq<Issued>) {
    exists w: Ticket :: w in accepted && ForwardedBy(t, w, log)
  }

  /** A write of the address of `t` accepted in an earlier cycle was still to go out when `t` arrived:
      the DRAM does not hold what `t` has to return. */
  ghost predicate Stale(t: Transaction, accepted: seq<Ticket>, log: seq<Issued>) {
    exists w: Ticket :: w in accepted && w.added < t.added && ForwardedBy(t, w, log)
  }

  /** `t` was answered by read command `j` for its address, which went out since it arrived and before
      any write that did. */
  ghost predicate ServedBy(cfg: Config, t: Transaction, log: seq<Issued>, j: int) {
    && 0 <= j < |log| && Reads(log[j], t.addr) && t.added <= log[j].clk && t.complete == log[j].clk + cfg.ReadDelay()
    && NoWriteIn(log, t.addr, t.added, log[j].clk)
  }

  ghost predicate Served(cfg: Config, t: Transaction, log: seq<Issued>) { exists j :: ServedBy(cfg, t, log, j) }

  /** A transaction due for its callback, and the reason for its due time. */
  ghost predicate DueOk(cfg: Config, t: Transaction, accepted: seq<Ticket>, log: seq<Issued>) {
    if t.isWrite || Stale(t, accepted, log) then t.complete == t.added + 1
    else (t.complete == t.added + 1 && Forwarded(t, accepted, log)) || Served(cfg, t, log)
  }

  /** A pending read found no write of its address waiting, and none has gone out since. */
  ghost predicate PendingOk(t: Transaction, accepted: seq<Ticket>, log: seq<Issued>, clk: int) {
    !t.isWrite && t.added <= clk && !Stale(t, accepted, log) && NoWriteIn(log, t.addr, t.added, clk)
  }

  /** The command of write `w` has not gone out since it was accepted. */
  ghost predicate Unsent(w: Ticket, log: seq<Issued>) {
    forall j :: 0 <= j < |log| && Writes(log[j], w.addr) ==> log[j].clk < w.added
  }

  ghost predicate UnsentOk(w: Transaction, accepted: seq<Ticket>, log: seq<Issued>, clk: int) {
    w.isWrite && w.added <= clk && Ticketed(w) in accepted && Unsent(Ticketed(w), log)
  }

  ghost predicate ReturnsOk(cfg: Config, ts: seq<Transaction>, accepted: seq<Ticket>, log: seq<Issued>, clk: int) {
    forall i :: 0 <= i < |ts| ==> ts[i].added <= clk && DueOk(cfg, ts[i], accepted, log)
  }

  ghost predicate ReadsOk(ts: seq<Transaction>, accepted: seq<Ticket>, log: seq<Issued>, clk: int) {
    forall i :: 0 <= i < |ts| ==> PendingOk(ts[i], accepted, log, clk)
  }

  ghost predicate WritesOk(ts: seq<Transaction>, accepted: seq<Ticket>, log: seq<Issued>, clk: int) {
    forall i :: 0 <= i < |ts| ==> UnsentOk(ts[i], accepted, log, clk)
  }

  /** An accepted write whose command has not gone out since is pending. */
  ghost predicate SentOk(ts: seq<Transaction>, accepted: seq<Ticket>, log: seq<Issued>, clk: int) {
    forall w: Ticket :: w in accepted ==> w.added <= clk && (w.isWrite && Unsent(w, log) ==> Has(ts, w.addr))
  }

  ghost predicate Timely(cfg: Config, s: Ctrl) {
    && ReturnsOk(cfg, s.returnQ, s.accepted, s.log, s.clk) && ReadsOk(s.pendingRd, s.accepted, s.log, s.clk)
    && WritesOk(s.pendingWr, s.accepted, s.log, s.clk) && SentOk(s.pendingWr, s.accepted, s.log, s.clk)
  }

  // ---------------------------------------------------------------- a command goes out

  lemma WindowLater(log: seq<Issued>, addr: nat, from: int, to: int, e: Issued)
    requires to <= e.clk
    ensures NoWriteIn(log + [e], addr, from, to) <==> NoWriteIn(log, addr, from, to)
  {
    if NoWriteIn(log + [e], addr, from, to) {
      forall j | 0 <= j < |log| && Writes(log[j], addr) ensures log[j].clk < from || to <= log[j].clk {
        assert (log + [e])[j] == log[j];
      }
    }
  }

  /** A later command changes nothing of what a transaction found when it arrived. */
  lemma FoundLater(t: Transaction, accepted: seq<Ticket>, log: seq<Issued>, e: Issued)
    requires t.added <= e.clk
    ensures forall w: Ticket :: ForwardedBy(t, w, log + [e]) <==> ForwardedBy(t, w, log)
    ensures Stale(t, accepted, log + [e]) <==> Stale(t, accepted, log)
    ensures Forwarded(t, accepted, log + [e]) <==> Forwarded(t, accepted, log)
  {
    forall w: Ticket ensures ForwardedBy(t, w, log + [e]) <==> ForwardedBy(t, w, log) {
      WindowLater(log, t.addr, w.added, t.added, e);
    }
    hide ForwardedBy;
  }

  lemma DueLater(cfg: Config, t: Transaction, accepted: seq<Ticket>, log: seq<Issued>, e: Issued)
    requires DueOk(cfg, t, accepted, log) && t.added <= e.clk && Past(log, e.clk)
    ensures DueOk(cfg, t, accepted, log + [e])
  {
    FoundLater(t, accepted, log, e);
    hide Stale, Forwarded;
    if j :| ServedBy(cfg, t, log, j) {
      assert (log + [e])[j] == log[j];
      WindowLater(log, t.addr, t.added, log[j].clk, e);
      assert ServedBy(cfg, t, log + [e], j);
    }
  }

  lemma DueNow(cfg: Config, t: Transaction, accepted: seq<Ticket>, log: seq<Issued>, e: Issued)
    requires PendingOk(t, accepted, log, e.clk) && Reads(e, t.addr)
    ensures DueOk(cfg, t.(complete := e.clk + cfg.ReadDelay()), accepted, log + [e])
  {
    var done := t.(complete := e.clk + cfg.ReadDelay());
    assert Stale(done, accepted, log) <==> Stale(t, accepted, log) by { SameArrival(t, done, accepted, log); }
    FoundLater(done, accepted, log, e);
    hide Stale, Forwarded;
    WindowLater(log, t.addr, t.added, e.clk, e);
    assert ServedBy(cfg, done, log + [e], |log|);
  }

  lemma SameArrival(t: Transaction, t': Transaction, accepted: seq<Ticket>, log: seq<Issued>)
    requires t' == t.(complete := t'.complete)
    ensures Stale(t', accepted, log) <==> Stale(t, accepted, log)
  {
    forall w: Ticket ensures ForwardedBy(t', w, log) <==> ForwardedBy(t, w, log) { }
    hide ForwardedBy;
  }

  lemma {:induction false} MatchingSub(ts: seq<Transaction>, addr: nat)
    ensures forall i :: 0 <= i < |Matching(ts, addr)| ==>
        Matching(ts, addr)[i] in ts && Matching(ts, addr)[i].addr == addr
  {
    if ts != [] { MatchingSub(ts[1..], addr); }
  }

  lemma ReturnsLater(cfg: Config, ts: seq<Transaction>, accepted: seq<Ticket>, log: seq<Issued>, e: Issued)
    requires ReturnsOk(cfg, ts, accepted, log, e.clk) && Past(log, e.clk)
    ensures ReturnsOk(cfg, ts, accepted, log + [e], e.clk)
  {
    hide DueOk, Past;
    forall i | 0 <= i < |ts| ensures DueOk(cfg, ts[i], accepted, log + [e]) { DueLater(cfg, ts[i], accepted, log, e); }
  }

  /** A command that writes none of their addresses leaves reads pending. */
  lemma ReadsLater(ts: seq<Transaction>, accepted: seq<Ticket>, log: seq<Issued>, e: Issued)
    requires ReadsOk(ts, accepted, log, e.clk) && forall i :: 0 <= i < |ts| ==> !Writes(e, ts[i].addr)
    requires Past(log, e.clk)
    ensures ReadsOk(ts, accepted, log + [e], e.clk + 1)
  {
    forall i | 0 <= i < |ts| ensures PendingOk(ts[i], accepted, log + [e], e.clk + 1) {
      assert PendingOk(ts[i], accepted, log, e.clk);
      FoundLater(ts[i], accepted, log, e);
      hide Stale;
    }
  }

  lemma ReadIssued(cfg: Config, returnQ: seq<Transaction>, pendingRd: seq<Transaction>, accepted: seq<Ticket>,
                   log: seq<Issued>, e: Issued)
    requires ReturnsOk(cfg, returnQ, accepted, log, e.clk) && ReadsOk(pendingRd, accepted, log, e.clk)
    requires IsRead(e.cmd.ty) && Past(log, e.clk)
    ensures ReadsOk(Others(pendingRd, e.cmd.hexAddr), accepted, log + [e], e.clk + 1)
    ensures ReturnsOk(cfg, returnQ + Completed(Matching(pendingRd, e.cmd.hexAddr), e.clk + cfg.ReadDelay()), accepted,
                      log + [e], e.clk)
  {
    hide DueOk, PendingOk, Past;
    var due := Matching(pendingRd, e.cmd.hexAddr);
    var done := Completed(due, e.clk + cfg.ReadDelay());
    MatchingSub(pendingRd, e.cmd.hexAddr);
    OthersSub(pendingRd, e.cmd.hexAddr);
    hide Matching, Others;
    ReadsLater(Others(pendingRd, e.cmd.hexAddr), accepted, log, e);
    ReturnsLater(cfg, returnQ, accepted, log, e);
    forall i | 0 <= i < |done| ensures done[i].added <= e.clk && DueOk(cfg, done[i], accepted, log + [e]) {
      assert due[i] in pendingRd;
      ArrivedBy(due[i], accepted, log, e.clk);
      DueNow(cfg, due[i], accepted, log, e);
    }
  }

  lemma ArrivedBy(t: Transaction, accepted: seq<Ticket>, log: seq<Issued>, clk: int)
    requires PendingOk(t, accepted, log, clk)
    ensures t.added <= clk
  {
  }

  /** A command that writes none of the addresses leaves their writes pending. */
  lemma WritesLater(ts: seq<Transaction>, accepted: seq<Ticket>, log: seq<Issued>, e: Issued)
    requires WritesOk(ts, accepted, log, e.clk) && forall i :: 0 <= i < |ts| ==> !Writes(e, ts[i].addr)
    ensures WritesOk(ts, accepted, log + [e], e.clk)
  {
    forall i | 0 <= i < |ts| ensures UnsentOk(ts[i], accepted, log + [e], e.clk) {
      assert UnsentOk(ts[i], accepted, log, e.clk);
    }
  }

  lemma WriteIssued(ts: seq<Transaction>, accepted: seq<Ticket>, log: seq<Issued>, e: Issued)
    requires WritesOk(ts, accepted, log, e.clk) && SingleWrites(ts)
    ensures WritesOk(EraseOne(ts, e.cmd.hexAddr), accepted, log + [e], e.clk)
  {
    var rest := EraseOne(ts, e.cmd.hexAddr);
    EraseOneSub(ts, e.cmd.hexAddr);
    EraseOneHas(ts, e.cmd.hexAddr, e.cmd.hexAddr);
    hide UnsentOk, EraseOne;
    forall i | 0 <= i < |rest| ensures UnsentOk(rest[i], accepted, log, e.clk) && !Writes(e, rest[i].addr) {
      assert rest[i] in ts;
      assert rest[i].addr == e.cmd.hexAddr ==> Has(rest, e.cmd.hexAddr);
    }
    WritesLater(rest, accepted, log, e);
  }

  lemma UnsentLater(w: Ticket, log: seq<Issued>, e: Issued)
    requires w.added <= e.clk
    ensures Unsent(w, log + [e]) <==> Unsent(w, log) && !Writes(e, w.addr)
  {
    if Unsent(w, log + [e]) {
      assert (log + [e])[|log|] == e;
      forall j | 0 <= j < |log| && Writes(log[j], w.addr) ensures log[j].clk < w.added {
        assert (log + [e])[j] == log[j];
      }
    }
  }

  lemma SentLater(ts: seq<Transaction>, accepted: seq<Ticket>, log: seq<Issued>, e: Issued)
    requires SentOk(ts, accepted, log, e.clk)
    ensures SentOk(ts, accepted, log + [e], e.clk)
  {
    forall w: Ticket | w in accepted && w.isWrite && Unsent(w, log + [e]) ensures Has(ts, w.addr) {
      UnsentLater(w, log, e);
    }
  }

  lemma SentIssued(ts: seq<Transaction>, accepted: seq<Ticket>, log: seq<Issued>, e: Issued)
    requires SentOk(ts, accepted, log, e.clk) && SingleWrites(ts) && IsWrite(e.cmd.ty)
    ensures SentOk(EraseOne(ts, e.cmd.hexAddr), accepted, log + [e], e.clk)
  {
    forall w: Ticket | w in accepted && w.isWrite && Unsent(w, log + [e])
        ensures Has(EraseOne(ts, e.cmd.hexAddr), w.addr) {
      UnsentLater(w, log, e);
      EraseOneHas(ts, e.cmd.hexAddr, w.addr);
    }
  }

  /** The command half of a cycle: reads answer what is pending, and a write goes out only when no read
      of its address is. */
  lemma StepTimely(cfg: Config, s: Ctrl, s': Ctrl, q: CmdQueue, r: Pick)
    requires Shaped(cfg, s.ch) && StepForm(cfg, s, s', q, r) && Timely(cfg, s) && SingleWrites(s.pendingWr)
    requires Past(s.log, s.clk) && (r.Issue? && IsWrite(r.cmd.ty) ==> !Has(s.pendingRd, r.cmd.hexAddr))
    ensures Timely(cfg, s'.(clk := s.clk + 1))
  {
    hide ReturnsOk, ReadsOk, WritesOk, SentOk, SingleWrites, Ready, Update, Matching, Others, EraseOne, Completed, Past,
         Has;
    LaterClock(cfg, s);
    if r.Issue? {
      var e := Issued(s.clk, r.cmd);
      if IsRead(r.cmd.ty) {
        ReadIssued(cfg, s.returnQ, s.pendingRd, s.accepted, s.log, e);
        WritesLater(s.pendingWr, s.accepted, s.log, e);
        SentLater(s.pendingWr, s.accepted, s.log, e);
      } else {
        ReturnsLater(cfg, s.returnQ, s.accepted, s.log, e);
        NotWritten(s.pendingRd, e);
        ReadsLater(s.pendingRd, s.accepted, s.log, e);
        if IsWrite(r.cmd.ty) {
          WriteIssued(s.pendingWr, s.accepted, s.log, e);
          SentIssued(s.pendingWr, s.accepted, s.log, e);
        } else {
          WritesLater(s.pendingWr, s.accepted, s.log, e);
          SentLater(s.pendingWr, s.accepted, s.log, e);
        }
      }
      OneCycle(cfg, s'.returnQ, s'.pendingWr, s'.accepted, s'.log, s.clk);
    }
  }

  lemma NotWritten(ts: seq<Transaction>, e: Issued)
    requires IsWrite(e.cmd.ty) ==> !Has(ts, e.cmd.hexAddr)
    ensures forall i :: 0 <= i < |ts| ==> !Writes(e, ts[i].addr)
  {
  }

  lemma OneCycle(cfg: Config, due: seq<Transaction>, unsent: seq<Transaction>, accepted: seq<Ticket>,
                 log: seq<Issued>, clk: int)
    requires ReturnsOk(cfg, due, accepted, log, clk) && WritesOk(unsent, accepted, log, clk)
    requires SentOk(unsent, accepted, log, clk)
    ensures ReturnsOk(cfg, due, accepted, log, clk + 1) && WritesOk(unsent, accepted, log, clk + 1)
    ensures SentOk(unsent, accepted, log, clk + 1)
  {
    hide DueOk, Has, Unsent;
  }

  /** Nothing goes out in a cycle. */
  lemma LaterClock(cfg: Config, s: Ctrl)
    requires Timely(cfg, s) && Past(s.log, s.clk)
    ensures Timely(cfg, s.(clk := s.clk + 1))
  {
    OneCycle(cfg, s.returnQ, s.pendingWr, s.accepted, s.log, s.clk);
    hide ReturnsOk, WritesOk, SentOk;
    forall i | 0 <= i < |s.pendingRd| ensures PendingOk(s.pendingRd[i], s.accepted, s.log, s.clk + 1) {
      assert PendingOk(s.pendingRd[i], s.accepted, s.log, s.clk);
      hide Stale;
    }
  }

  // ---------------------------------------------------------------- a tick

  lemma ScheduleKeeps(cfg: Config, s: Ctrl)
    requires AddressMap.ValidMapping(cfg)
    ensures SameTimes(s, ScheduleTransaction(cfg, s)) && ScheduleTransaction(cfg, s).clk == s.clk
  {
    hide TransToCommand, Has, FirstAccepted, Draining, AddressMap.ValidMapping;
  }

  predicate SameTimes(s: Ctrl, s': Ctrl) {
    && s'.returnQ == s.returnQ && s'.pendingRd == s.pendingRd && s'.pendingWr == s.pendingWr && s'.log == s.log
    && s'.accepted == s.accepted
  }

  /** What a tick does to due times and pending transactions it does in its command half. */
  lemma TickParts(cfg: Config, s: Ctrl, s2: Ctrl)
    requires ValidConfig(cfg) && Shapely(cfg, RefreshTick(cfg, s)) && IssueStep(cfg, RefreshTick(cfg, s)) == Some(s2)
    ensures var r := Step(cfg, s, Tick); r.Some? && SameTimes(s2, r.value) && r.value.clk == s.clk + 1
  {
    hide Shapely, IssueStep, RefreshTick, ScheduleTransaction;
    MappingOk(cfg);
    hide ValidConfig;
    ScheduleKeeps(cfg, s2);
  }

  lemma TickTimely(cfg: Config, s: Ctrl)
    requires Inv(cfg, s) && Timely(cfg, s)
    ensures Step(cfg, s, Tick).Some? && Timely(cfg, Step(cfg, s, Tick).value)
  {
    hide Inv, Core, StepForm, Choose, ReturnsOk, ReadsOk, WritesOk, SentOk, IssueStep, Step, RefreshTick, Shapely,
         ValidConfig, SingleWrites, Past, Has;
    var s1, s' := TickStages(cfg, s);
    var s2 := IssueStep(cfg, s1).value;
    RefreshKeeps(cfg, s);
    ShapelyShaped(cfg, s1);
    CoreSingle(cfg, s1);
    InvPast(cfg, s);
    WriteHeld(cfg, s);
    StepTimely(cfg, s1, s2, Choose(cfg, s1).0, Choose(cfg, s1).1);
    TickParts(cfg, s, s2);
  }

  lemma CoreSingle(cfg: Config, s: Ctrl)
    requires Core(cfg, s)
    ensures SingleWrites(s.pendingWr)
  {
    hide Device, Placed, Sides, OneEach, NoneLost, Ordered, SingleWrites;
  }

  lemma RefreshKeeps(cfg: Config, s: Ctrl)
    requires ValidConfig(cfg)
    ensures SameTimes(s, RefreshTick(cfg, s)) && RefreshTick(cfg, s).clk == s.clk
  {
  }

  // ---------------------------------------------------------------- the other operations

  /** A transaction accepted later changes nothing of what `t` found when it arrived. */
  lemma FoundMore(t: Transaction, accepted: seq<Ticket>, x: Ticket, log: seq<Issued>)
    requires t.added <= x.added
    ensures Stale(t, accepted + [x], log) <==> Stale(t, accepted, log)
    ensures Forwarded(t, accepted, log) ==> Forwarded(t, accepted + [x], log)
  {
    hide ForwardedBy;
    var more := accepted + [x];
    forall w: Ticket ensures w in more <==> w in accepted || w == x { }
    if w: Ticket :| w in accepted && w.added < t.added && ForwardedBy(t, w, log) { assert w in more; }
    if w: Ticket :| w in accepted && ForwardedBy(t, w, log) { assert w in more; }
  }

  lemma DueMore(cfg: Config, t: Transaction, accepted: seq<Ticket>, x: Ticket, log: seq<Issued>)
    requires DueOk(cfg, t, accepted, log) && t.added <= x.added
    ensures DueOk(cfg, t, accepted + [x], log)
  {
    hide Stale, Forwarded, Served;
    FoundMore(t, accepted, x, log);
  }

  lemma PendingMore(t: Transaction, accepted: seq<Ticket>, x: Ticket, log: seq<Issued>, clk: int)
    requires PendingOk(t, accepted, log, clk) && clk <= x.added
    ensures PendingOk(t, accepted + [x], log, clk)
  {
    hide Stale, Forwarded;
    FoundMore(t, accepted, x, log);
  }

  /** What is due and what is pending, with one more transaction accepted. */
  lemma AcceptedMore(cfg: Config, s: Ctrl, x: Ticket)
    requires Timely(cfg, s) && x.added == s.clk
    ensures var more := s.accepted + [x];
      && ReturnsOk(cfg, s.returnQ, more, s.log, s.clk) && ReadsOk(s.pendingRd, more, s.log, s.clk)
      && WritesOk(s.pendingWr, more, s.log, s.clk)
  {
    var more := s.accepted + [x];
    hide DueOk, PendingOk, SentOk, Unsent;
    forall i | 0 <= i < |s.returnQ| ensures DueOk(cfg, s.returnQ[i], more, s.log) {
      DueMore(cfg, s.returnQ[i], s.accepted, x, s.log);
    }
    forall i | 0 <= i < |s.pendingRd| ensures PendingOk(s.pendingRd[i], more, s.log, s.clk) {
      PendingMore(s.pendingRd[i], s.accepted, x, s.log, s.clk);
    }
  }

  /** A read that finds a pending write of its address is forwarded. */
  lemma ForwardFrom(s: Ctrl, addr: nat, accepted: seq<Ticket>)
    requires WritesOk(s.pendingWr, accepted, s.log, s.clk) && Has(s.pendingWr, addr)
    ensures Forwarded(Transaction(addr, false, s.clk, s.clk + 1), accepted, s.log)
  {
    var i :| 0 <= i < |s.pendingWr| && s.pendingWr[i].addr == addr;
    assert UnsentOk(s.pendingWr[i], accepted, s.log, s.clk);
    assert ForwardedBy(Transaction(addr, false, s.clk, s.clk + 1), Ticketed(s.pendingWr[i]), s.log);
  }

  /** A read that finds none waits for DRAM, which holds every write accepted before. */
  lemma NotStale(s: Ctrl, addr: nat)
    requires SentOk(s.pendingWr, s.accepted, s.log, s.clk) && Past(s.log, s.clk) && !Has(s.pendingWr, addr)
    ensures var t := Transaction(addr, false, s.clk, 0);
      PendingOk(t, s.accepted + [Ticketed(t)], s.log, s.clk)
  {
    var t := Transaction(addr, false, s.clk, 0);
    hide Has;
    forall w: Ticket | w in s.accepted ensures !(w.added < t.added && ForwardedBy(t, w, s.log)) {
      if w.added < t.added && ForwardedBy(t, w, s.log) { ForwardUnsent(t, w, s.log); }
    }
    assert !Stale(t, s.accepted, s.log);
    hide Stale;
    FoundMore(t, s.accepted, Ticketed(t), s.log);
  }

  lemma ForwardUnsent(t: Transaction, w: Ticket, log: seq<Issued>)
    requires ForwardedBy(t, w, log) && Past(log, t.added)
    ensures w.isWrite && w.addr == t.addr && Unsent(w, log)
  {
  }

  lemma NewUnsent(s: Ctrl, addr: nat)
    requires Past(s.log, s.clk)
    ensures var t := Transaction(addr, true, s.clk, 0); UnsentOk(t, s.accepted + [Ticketed(t)], s.log, s.clk)
  {
  }

  lemma SentMore(s: Ctrl, addr: nat, isWrite: bool, ts: seq<Transaction>)
    requires SentOk(s.pendingWr, s.accepted, s.log, s.clk)
    requires forall a :: Has(s.pendingWr, a) ==> Has(ts, a)
    requires isWrite ==> Has(ts, addr)
    ensures SentOk(ts, s.accepted + [Ticket(addr, isWrite, s.clk)], s.log, s.clk)
  {
    hide Has, Unsent;
  }

  /** The pending writes after a transaction has arrived. */
  lemma AddedWrites(cfg: Config, s: Ctrl, addr: nat, isWrite: bool)
    ensures var ts := AddTransaction(cfg, s, addr, isWrite).pendingWr;
      && (forall a :: Has(s.pendingWr, a) ==> Has(ts, a)) && (isWrite ==> Has(ts, addr))
  {
    var t := Transaction(addr, isWrite, s.clk, 0);
    forall a ensures Has(s.pendingWr, a) ==> Has(s.pendingWr + [t], a) { HasAdd(s.pendingWr, t, a); }
    HasAdd(s.pendingWr, t, addr);
  }

  lemma AddTimely(cfg: Config, s: Ctrl, addr: nat, isWrite: bool)
    requires Timely(cfg, s) && Past(s.log, s.clk)
    ensures Timely(cfg, AddTransaction(cfg, s, addr, isWrite))
  {
    var t := Transaction(addr, isWrite, s.clk, 0);
    AcceptedMore(cfg, s, Ticketed(t));
    var more := s.accepted + [Ticketed(t)];
    AddedWrites(cfg, s, addr, isWrite);
    SentMore(s, addr, isWrite, AddTransaction(cfg, s, addr, isWrite).pendingWr);
    if isWrite {
      NewUnsent(s, addr);
    } else if Has(s.pendingWr, addr) {
      ForwardFrom(s, addr, more);
    } else {
      NotStale(s, addr);
    }
    hide Has, Forwarded, Stale, UnsentOk, Served, SentOk, PendingOk, Past;
  }

  lemma ReturnTimely(cfg: Config, s: Ctrl)
    requires Timely(cfg, s)
    ensures Timely(cfg, ReturnDoneTrans(s, s.clk).0)
  {
    hide DueOk, FirstDone, ReadsOk, WritesOk, SentOk;
  }

  lemma {:induction false} RunTimely(cfg: Config, ops: seq<Op>)
    requires ValidConfig(cfg)
    ensures Run(cfg, ops).Some? && Timely(cfg, Run(cfg, ops).value)
  {
    hide Inv, Timely, AddTransaction, ReturnDoneTrans, ValidConfig, Past;
    if ops == [] {
      EmptyTimely(cfg);
    } else {
      var before := ops[..|ops| - 1];
      RunTimely(cfg, before);
      RunInv(cfg, before);
      var s := Run(cfg, before).value;
      InvPast(cfg, s);
      match ops[|ops| - 1]
      case Tick => TickTimely(cfg, s);
      case Add(addr, isWrite) => AddTimely(cfg, s, addr, isWrite);
      case Return => ReturnTimely(cfg, s);
    }
  }

  lemma EmptyTimely(cfg: Config)
    requires ValidConfig(cfg)
    ensures Timely(cfg, Initial(cfg))
  {
    hide ValidConfig;
  }

  /** Whatever is called back after any run is due: a write at least a cycle after it arrived; a read
      likewise if a write of its address was still to go out when it arrived, and otherwise at least the
      read delay after a read command for its address that went out no earlier than it arrived and before
      any write of the address that did: what it returns is what was written when it arrived. */
  lemma CallbackLatency(cfg: Config, ops: seq<Op>, t: Transaction)
    requires ValidConfig(cfg) && Run(cfg, ops).Some?
    requires ReturnDoneTrans(Run(cfg, ops).value, Run(cfg, ops).value.clk).1 == Some(t)
    ensures var s := Run(cfg, ops).value; t.complete <= s.clk && DueOk(cfg, t, s.accepted, s.log)
  {
    hide Run, DueOk, ValidConfig;
    RunTimely(cfg, ops);
  }

  /** A write of `addr` was accepted, and no command has written the address since. */
  ghost predicate Outstanding(s: Ctrl, addr: nat) {
    exists w: Ticket :: w in s.accepted && w.isWrite && w.addr == addr && Unsent(w, s.log)
  }

  /** In every run the pending writes are the writes accepted whose command has not gone out since. */
  lemma PendingIff(cfg: Config, ops: seq<Op>, addr: nat)
    requires ValidConfig(cfg)
    ensures Run(cfg, ops).Some?
    ensures Has(Run(cfg, ops).value.pendingWr, addr) <==> Outstanding(Run(cfg, ops).value, addr)
  {
    hide Run, ValidConfig, ReturnsOk, ReadsOk;
    RunTimely(cfg, ops);
    var s := Run(cfg, ops).value;
    if Has(s.pendingWr, addr) {
      var i :| 0 <= i < |s.pendingWr| && s.pendingWr[i].addr == addr;
      assert UnsentOk(s.pendingWr[i], s.accepted, s.log, s.clk);
      assert Ticketed(s.pendingWr[i]) in s.accepted;
    }
  }

  /** The only thing that arrival changes but for the account of accepted transactions. */
  predicate DueAtOnce(s: Ctrl, s': Ctrl, addr: nat) {
    s' == s.(returnQ := s.returnQ + [Transaction(addr, false, s.clk, s.clk + 1)], accepted := s'.accepted)
  }

  predicate WaitsForDram(s: Ctrl, s': Ctrl, addr: nat) {
    s'.returnQ == s.returnQ && s'.pendingRd == s.pendingRd + [Transaction(addr, false, s.clk, 0)]
  }

  /** The queue that a transaction of this kind would join is not full. */
  predicate HasSpace(cfg: Config, s: Ctrl, isWrite: bool) {
    |if cfg.unifiedQueue then s.unified else if isWrite then s.writeBuf else s.readQ| < cfg.transQueueSize
  }

  /** A write for which there is room is due in the next cycle, and from then on outstanding. */
  lemma WriteTaken(cfg: Config, ops: seq<Op>, addr: nat)
    requires ValidConfig(cfg)
    requires Run(cfg, ops).Some? && HasSpace(cfg, Run(cfg, ops).value, true)
    ensures Run(cfg, ops + [Add(addr, true)]).Some?
    ensures var s, s' := Run(cfg, ops).value, Run(cfg, ops + [Add(addr, true)]).value;
      && s'.returnQ == s.returnQ + [Transaction(addr, true, s.clk, s.clk + 1)] && s'.pendingRd == s.pendingRd
      && Outstanding(s', addr)
  {
    assert (ops + [Add(addr, true)])[..|ops|] == ops;
    hide ValidConfig, Outstanding;
    PendingIff(cfg, ops + [Add(addr, true)], addr);
    var s := Run(cfg, ops).value;
    AddedWrites(cfg, s, addr, true);
    hide Has;
  }

  /** A read for which there is room sees the writes accepted before it. If the command of one is still
      to go out, the read is due in the next cycle and nothing waits for it; otherwise it waits for
      DRAM, which has them all. */
  lemma ReadSeesWrites(cfg: Config, ops: seq<Op>, addr: nat)
    requires ValidConfig(cfg)
    requires Run(cfg, ops).Some? && HasSpace(cfg, Run(cfg, ops).value, false)
    ensures Run(cfg, ops + [Add(addr, false)]).Some?
    ensures var s, s' := Run(cfg, ops).value, Run(cfg, ops + [Add(addr, false)]).value;
      if Outstanding(s, addr) then DueAtOnce(s, s', addr) else WaitsForDram(s, s', addr)
  {
    assert (ops + [Add(addr, false)])[..|ops|] == ops;
    hide ValidConfig, Outstanding, Has;
    PendingIff(cfg, ops, addr);
  }

  /** In every run no pending read is younger than a pending write of its address, and no command has
      written the address since the read arrived. */
  lemma PendingReadsFirst(cfg: Config, ops: seq<Op>, i: nat, j: nat)
    requires ValidConfig(cfg) && Run(cfg, ops).Some?
    requires i < |Run(cfg, ops).value.pendingRd|
    ensures var s := Run(cfg, ops).value; var t := s.pendingRd[i];
      && NoWriteIn(s.log, t.addr, t.added, s.clk)
      && (j < |s.pendingWr| && s.pendingWr[j].addr == t.addr ==> t.added <= s.pendingWr[j].added)
  {
    hide Run, ValidConfig, ReturnsOk, SentOk;
    RunTimely(cfg, ops);
    var s := Run(cfg, ops).value;
    hide Stale, Unsent;
    assert PendingOk(s.pendingRd[i], s.accepted, s.log, s.clk);
    if j < |s.pendingWr| && s.pendingWr[j].addr == s.pendingRd[i].addr {
      var w := s.pendingWr[j];
      assert UnsentOk(w, s.accepted, s.log, s.clk);
      if w.added < s.pendingRd[i].added { StaleBy(s.pendingRd[i], Ticketed(w), s.accepted, s.log); }
    }
  }

  lemma StaleBy(t: Transaction, w: Ticket, accepted: seq<Ticket>, log: seq<Issued>)
    requires w in accepted && w.isWrite && w.addr == t.addr && w.added < t.added && Unsent(w, log)
    ensures Stale(t, accepted, log)
  {
    assert ForwardedBy(t, w, log);
  }

  // ---------------------------------------------------------------- what goes out was asked for

  /** An access goes to the bank, row and column of its address, and a transaction of its kind at that
      address was accepted before it went out. */
  ghost predicate AskedFor(cfg: Config, e: Issued, accepted: seq<Ticket>)
    requires AddressMap.ValidMapping(cfg)
  {
    IsReadWrite(e.cmd.ty) ==>
      && e.cmd.addr == AddressMap.AddressMapping(cfg, e.cmd.hexAddr)
      && exists x: Ticket :: x in accepted && Asks(x, e)
  }

  predicate Asks(x: Ticket, e: Issued) {
    x.addr == e.cmd.hexAddr && x.isWrite == IsWrite(e.cmd.ty) && x.added <= e.clk
  }

  ghost predicate AllAskedFor(cfg: Config, log: seq<Issued>, accepted: seq<Ticket>)
    requires AddressMap.ValidMapping(cfg)
  {
    forall i :: 0 <= i < |log| ==> AskedFor(cfg, log[i], accepted)
  }

  lemma AskedMore(cfg: Config, log: seq<Issued>, accepted: seq<Ticket>, more: seq<Ticket>)
    requires AddressMap.ValidMapping(cfg) && AllAskedFor(cfg, log, accepted) && accepted <= more
    ensures AllAskedFor(cfg, log, more)
  {
    hide AddressMap.ValidMapping, AddressMap.AddressMapping;
    forall i | 0 <= i < |log| ensures AskedFor(cfg, log[i], more) {
      assert AskedFor(cfg, log[i], accepted);
      if x: Ticket :| x in accepted && Asks(x, log[i]) { assert x in more; }
    }
  }

  /** A pending transaction was accepted. */
  lemma PendingAccepted(cfg: Config, s: Ctrl, addr: nat, isWrite: bool)
    requires Books(cfg, s) && Timely(cfg, s) && Has(if isWrite then s.pendingWr else s.pendingRd, addr)
    ensures exists x: Ticket :: x in s.accepted && x.addr == addr && x.isWrite == isWrite && x.added <= s.clk
  {
    assert NoneLost(s) && AllSide(s.pendingRd, false);
    hide Books, ReturnsOk, SentOk, Stale, Unsent, NoWriteIn;
    var ts := if isWrite then s.pendingWr else s.pendingRd;
    var i :| 0 <= i < |ts| && ts[i].addr == addr;
    if isWrite {
      assert UnsentOk(ts[i], s.accepted, s.log, s.clk);
    } else {
      assert PendingOk(ts[i], s.accepted, s.log, s.clk);
      assert Tickets(s.pendingRd)[i] in multiset(Tickets(s.pendingRd));
    }
    assert Ticketed(ts[i]) in multiset(s.accepted);
  }

  lemma QueueAddress(cfg: Config, s: Ctrl, q: CmdQueue, cmd: Command, i: int, p: int, m: int)
    requires AddressMap.ValidMapping(cfg) && Placed(cfg, s.cq.queues) && cfg.Banks() != 0
    requires ServesQueue(cfg, s, q, cmd, i, p, m)
    ensures cmd.addr == AddressMap.AddressMapping(cfg, cmd.hexAddr)
  {
    hide RefreshState, AddressMap.ValidMapping, AddressMap.AddressMapping;
    assert Fitting(cfg, s.cq.queues[i][p], i);
  }

  lemma CorePlaced(cfg: Config, s: Ctrl)
    requires Core(cfg, s)
    ensures AddressMap.ValidMapping(cfg) && Placed(cfg, s.cq.queues) && cfg.Banks() != 0
  {
    hide Tracks, QueuesShaped, RefreshState, Sides, OneEach, SingleWrites, NoneLost, Ordered, Placed;
  }

  lemma ChosenAddress(cfg: Config, s: Ctrl)
    requires Core(cfg, s) && Shapely(cfg, s)
    ensures AddressMap.ValidMapping(cfg)
    ensures var r := Choose(cfg, s).1;
      r.Issue? && IsReadWrite(r.cmd.ty) ==> r.cmd.addr == AddressMap.AddressMapping(cfg, r.cmd.hexAddr)
  {
    hide Core, Choose, RefreshState, Ready, Shapely, ServesQueue, Placed, AddressMap.ValidMapping,
         AddressMap.AddressMapping;
    CorePlaced(cfg, s);
    var i, p, m := ChooseOk(cfg, s);
    var (q, r) := Choose(cfg, s);
    if r.Issue? && ServesQueue(cfg, s, q, r.cmd, i, p, m) { QueueAddress(cfg, s, q, r.cmd, i, p, m); }
  }

  lemma TickAskedFor(cfg: Config, s: Ctrl)
    requires Inv(cfg, s) && Timely(cfg, s) && AddressMap.ValidMapping(cfg) && AllAskedFor(cfg, s.log, s.accepted)
    ensures Step(cfg, s, Tick).Some?
    ensures AllAskedFor(cfg, Step(cfg, s, Tick).value.log, Step(cfg, s, Tick).value.accepted)
  {
    hide Inv, Core, StepForm, Choose, IssueStep, Step, RefreshTick, Shapely, ValidConfig, Timely, AskedFor, Books, Has,
         AddressMap.ValidMapping;
    var s1, s' := TickStages(cfg, s);
    var s2 := IssueStep(cfg, s1).value;
    RefreshKeeps(cfg, s);
    StepLog(cfg, s1, s2);
    TickParts(cfg, s, s2);
    ShapelyShaped(cfg, s1);
    StepAccepted(cfg, s1, s2, Choose(cfg, s1).0, Choose(cfg, s1).1);
    var r := Choose(cfg, s1).1;
    if r.Issue? {
      ChosenAddress(cfg, s1);
      ChosenPending(cfg, s1);
      NowAskedFor(cfg, s, s1, r.cmd);
    }
  }

  lemma StepAccepted(cfg: Config, s: Ctrl, s': Ctrl, q: CmdQueue, r: Pick)
    requires Shaped(cfg, s.ch) && StepForm(cfg, s, s', q, r)
    ensures s'.accepted == s.accepted
  {
    hide Ready, Update, Matching, Others, EraseOne, Completed;
  }

  lemma NowAskedFor(cfg: Config, s: Ctrl, s1: Ctrl, cmd: Command)
    requires Inv(cfg, s) && Timely(cfg, s) && SameTimes(s, s1) && s1.clk == s.clk && AddressMap.ValidMapping(cfg)
    requires IsReadWrite(cmd.ty) ==>
      && cmd.addr == AddressMap.AddressMapping(cfg, cmd.hexAddr)
      && Has(if IsWrite(cmd.ty) then s1.pendingWr else s1.pendingRd, cmd.hexAddr)
    ensures AskedFor(cfg, Issued(s.clk, cmd), s.accepted)
  {
    hide Device, Books, Timely, Has, AddressMap.ValidMapping, AddressMap.AddressMapping;
    if IsReadWrite(cmd.ty) {
      PendingAccepted(cfg, s, cmd.hexAddr, IsWrite(cmd.ty));
      var x: Ticket :| x in s.accepted && x.addr == cmd.hexAddr && x.isWrite == IsWrite(cmd.ty) && x.added <= s.clk;
      assert Asks(x, Issued(s.clk, cmd));
    }
  }

  lemma OtherAccepted(cfg: Config, s: Ctrl, op: Op)
    requires ValidConfig(cfg) && op != Tick && Step(cfg, s, op).Some?
    ensures var s' := Step(cfg, s, op).value; s'.log == s.log && s.accepted <= s'.accepted
  {
    hide Has, FirstDone, ValidConfig;
  }

  /** In every run each access goes where its address maps to and was asked for. */
  lemma {:induction false} RunAskedFor(cfg: Config, ops: seq<Op>)
    requires ValidConfig(cfg)
    ensures AddressMap.ValidMapping(cfg) && Run(cfg, ops).Some?
    ensures AllAskedFor(cfg, Run(cfg, ops).value.log, Run(cfg, ops).value.accepted)
  {
    MappingOk(cfg);
    hide Inv, Timely, ValidConfig, Step, AskedFor, AddressMap.ValidMapping;
    if ops != [] {
      var before := ops[..|ops| - 1];
      RunAskedFor(cfg, before);
      RunInv(cfg, before);
      RunTimely(cfg, before);
      var s := Run(cfg, before).value;
      if ops[|ops| - 1] == Tick {
        TickAskedFor(cfg, s);
      } else {
        RunInv(cfg, ops);
        OtherAccepted(cfg, s, ops[|ops| - 1]);
        AskedMore(cfg, s.log, s.accepted, Run(cfg, ops).value.accepted);
      }
    }
  }
}
