/** What a front end asks of DRAM and of memory for each burst it has taken: its requests one after
    another, at the addresses of its offer, and its data where the offer says. */
module MemoryRequests {
  import opened MemoryBursts
  import opened MemoryFront
  import opened MemoryFrontProofs
  import Arith

  // ---------------------------------------------------------------- bursts and their offers

  /** `t` is the burst of offer `o`. */
  ghost predicate MadeFrom(g: Geometry, t: Burst, o: Offer, fixed: bool)
    requires g.Valid()
  {
    && 0 < o.size && 0 < o.len && t.size == o.size && t.len == o.len && t.id == o.id && t.fpga == o.fpga
    && t.base == o.addr && t.fixed == fixed && t.enqueues == Enqueues(g, o.size, o.len)
  }

  ghost predicate ReadTable(g: Geometry, rb: seq<Burst>, offers: seq<Offer>)
    requires g.Valid()
  {
    |rb| == |offers| && forall i :: 0 <= i < |rb| ==> MadeFrom(g, rb[i], offers[i], false)
  }

  ghost predicate WriteTable(g: Geometry, wb: seq<Burst>, offers: seq<Offer>)
    requires g.Valid()
  {
    |wb| == |offers| && forall i :: 0 <= i < |wb| ==> MadeFrom(g, wb[i], offers[i], offers[i].fixed)
  }

  // ---------------------------------------------------------------- requests

  /** The requests of burst `i` in order. */
  function RequestsOf(all: seq<Request>, i: nat): seq<Request> {
    if all == [] then []
    else RequestsOf(all[..|all| - 1], i) + if all[|all| - 1].tx == i then [all[|all| - 1]] else []
  }

  /** Requests 0, 1, ..., n - 1 of a burst, each a DRAM burst further on. */
  function FirstRequests(g: Geometry, t: Burst, i: nat, n: nat): seq<Request> {
    seq(n, k => Request(i, k, RequestAddr(g, t, k)))
  }

  /** Each burst has sent its first requests, as many as it counts, each once and in order. */
  ghost predicate RequestsOk(g: Geometry, table: seq<Burst>, all: seq<Request>) {
    && (forall i: nat :: i < |table| ==>
          0 <= table[i].enqueued <= table[i].enqueues
          && RequestsOf(all, i) == FirstRequests(g, table[i], i, table[i].enqueued))
    && forall i: nat :: i >= |table| ==> RequestsOf(all, i) == []
  }

  // ---------------------------------------------------------------- the write side

  /** The writes still taking data are the latest, oldest first, and have sent nothing. */
  ghost predicate OpenLast(wb: seq<Burst>, open: seq<nat>) {
    && |open| <= |wb| && (forall p :: 0 <= p < |open| ==> open[p] == |wb| - |open| + p)
    && forall i :: |wb| - |open| <= i < |wb| ==> wb[i].enqueued == 0
  }

  /** The queue holds, oldest first, the writes that have their data and requests left. */
  ghost predicate WriteQueueOk(wb: seq<Burst>, open: seq<nat>, q: seq<nat>) {
    Ascending(q) && forall i: nat :: i in q <==> i < |wb| - |open| && wb[i].enqueued < wb[i].enqueues
  }

  /** The addresses of the beats of burst `i` in order. */
  function StoredOf(all: seq<Stored>, i: nat): seq<int> {
    if all == [] then []
    else StoredOf(all[..|all| - 1], i) + if all[|all| - 1].tx == i then [all[|all| - 1].addr] else []
  }

  /** Where beat `p` of a write goes: one after the other, or all to one place. */
  function StoreAddr(t: Burst, p: int): int { if t.fixed then t.base else t.base + p * t.size }

  ghost predicate StoredBurst(t: Burst, addrs: seq<int>) {
    t.addr == StoreAddr(t, |addrs|) && forall p :: 0 <= p < |addrs| ==> addrs[p] == StoreAddr(t, p)
  }

  /** The beats of each write went where its offer says, and writes took their beats in order of arrival. */
  ghost predicate StoredOk(wb: seq<Burst>, open: seq<nat>, all: seq<Stored>) {
    && (forall i: nat :: i < |wb| ==> StoredBurst(wb[i], StoredOf(all, i)))
    && (forall p, q :: 0 <= p < q < |all| ==> all[p].tx <= all[q].tx)
    && (forall p :: 0 <= p < |all| ==> all[p].tx <= |wb| - |open| && all[p].tx < |wb|)
  }

  ghost predicate HistoryInv(g: Geometry, f: Front) {
    && g.Valid() && ReadTable(g, f.rbursts, f.past.arOffers) && WriteTable(g, f.wbursts, f.past.awOffers)
    && RequestsOk(g, f.rbursts, f.past.issued) && RequestsOk(g, f.wbursts, f.past.sent)
    && OpenLast(f.wbursts, f.openWrites) && WriteQueueOk(f.wbursts, f.openWrites, f.writeQ)
    && StoredOk(f.wbursts, f.openWrites, f.past.stored)
  }

  // ---------------------------------------------------------------- a request goes out

  lemma RequestsSnoc(all: seq<Request>, x: Request, j: nat)
    ensures RequestsOf(all + [x], j) == RequestsOf(all, j) + if x.tx == j then [x] else []
  {
    assert (all + [x])[..|all|] == all;
  }

  lemma FirstMore(g: Geometry, t: Burst, i: nat)
    requires 0 <= t.enqueued
    ensures FirstRequests(g, Sent(t), i, t.enqueued + 1) ==
        FirstRequests(g, t, i, t.enqueued) + [Request(i, t.enqueued, NextAddr(g, t))]
  {
  }

  lemma OneRequestMore(g: Geometry, table: seq<Burst>, all: seq<Request>, i: nat)
    requires RequestsOk(g, table, all) && i < |table| && table[i].enqueued < table[i].enqueues
    ensures RequestsOk(g, table[i := Sent(table[i])], all + [Request(i, table[i].enqueued, NextAddr(g, table[i]))])
  {
    hide RequestsOf, FirstRequests, NextAddr;
    var t := table[i];
    var x := Request(i, t.enqueued, NextAddr(g, t));
    var table', all' := table[i := Sent(t)], all + [x];
    assert 0 <= t.enqueued;
    FirstMore(g, t, i);
    forall j: nat | j < |table'|
        ensures RequestsOf(all', j) == FirstRequests(g, table'[j], j, table'[j].enqueued)
        ensures 0 <= table'[j].enqueued <= table'[j].enqueues {
      RequestsSnoc(all, x, j);
      assert RequestsOf(all, j) == FirstRequests(g, table[j], j, table[j].enqueued);
    }
    forall j: nat | j >= |table'| ensures RequestsOf(all', j) == [] { RequestsSnoc(all, x, j); }
  }

  lemma TableSent(g: Geometry, table: seq<Burst>, offers: seq<Offer>, i: nat)
    requires g.Valid() && i < |table|
    ensures ReadTable(g, table, offers) ==> ReadTable(g, table[i := Sent(table[i])], offers)
    ensures WriteTable(g, table, offers) ==> WriteTable(g, table[i := Sent(table[i])], offers)
  {
  }

  lemma ReadQueued(g: Geometry, f: Front, p: int)
    requires ReadInv(g, f) && 0 <= p < |f.readQ| && InTable(f.readQ, f.rbursts)
    ensures f.rbursts[f.readQ[p]].enqueued < f.rbursts[f.readQ[p]].enqueues
  {
    hide BurstsOk, EntriesOk, OnceOk, PendingOk, BeatsOk, OrderOk, IssuedOk;
    assert f.readQ[p] in f.readQ;
  }

  lemma IssueReadHistory(g: Geometry, f: Front, p: int)
    requires HistoryInv(g, f) && ReadInv(g, f) && 0 <= p < |f.readQ| && InTable(f.readQ, f.rbursts)
    ensures HistoryInv(g, IssueRead(g, f, p))
  {
    hide ReadInv, RequestsOk, ReadTable, WriteTable, OpenLast, WriteQueueOk, StoredOk, NextAddr, RequestAddr;
    ReadQueued(g, f, p);
    var i := f.readQ[p];
    OneRequestMore(g, f.rbursts, f.past.issued, i);
    TableSent(g, f.rbursts, f.past.arOffers, i);
  }

  /** A write that has sent all its requests leaves the queue, and no other does. */
  lemma WriteQueueSent(wb: seq<Burst>, open: seq<nat>, q: seq<nat>, p: int)
    requires WriteQueueOk(wb, open, q) && OpenLast(wb, open) && 0 <= p < |q|
    ensures q[p] < |wb| && wb[q[p]].enqueued < wb[q[p]].enqueues
    ensures var t := Sent(wb[q[p]]); var wb' := wb[q[p] := t];
      WriteQueueOk(wb', open, if t.enqueued >= t.enqueues then Dropped(q, p) else q) && OpenLast(wb', open)
  {
    var i := q[p];
    assert i in q;
    var t := Sent(wb[i]);
    var wb' := wb[i := t];
    if t.enqueued >= t.enqueues {
      var q' := Dropped(q, p);
      forall j: nat ensures j in q' <==> j < |wb'| - |open| && wb'[j].enqueued < wb'[j].enqueues {
        DroppedHas(q, p, j);
      }
      DroppedHas(q, p, i);
    }
  }

  lemma StoredSame(wb: seq<Burst>, open: seq<nat>, all: seq<Stored>, i: nat, t: Burst)
    requires StoredOk(wb, open, all) && i < |wb|
    requires t.addr == wb[i].addr && t.base == wb[i].base && t.size == wb[i].size && t.fixed == wb[i].fixed
    ensures StoredOk(wb[i := t], open, all)
  {
    hide StoredOf;
    forall j: nat | j < |wb| ensures StoredBurst(wb[i := t][j], StoredOf(all, j)) {
      assert StoredBurst(wb[j], StoredOf(all, j));
    }
  }

  lemma IssueWriteHistory(g: Geometry, f: Front, p: int)
    requires HistoryInv(g, f) && 0 <= p < |f.writeQ| && InTable(f.writeQ, f.wbursts)
    ensures HistoryInv(g, IssueWrite(g, f, p))
  {
    hide RequestsOk, ReadTable, WriteTable, OpenLast, WriteQueueOk, StoredOk, NextAddr, RequestAddr;
    WriteQueueSent(f.wbursts, f.openWrites, f.writeQ, p);
    var i := f.writeQ[p];
    OneRequestMore(g, f.wbursts, f.past.sent, i);
    TableSent(g, f.wbursts, f.past.awOffers, i);
    StoredSame(f.wbursts, f.openWrites, f.past.stored, i, Sent(f.wbursts[i]));
  }

  // ---------------------------------------------------------------- answers

  /** A change that leaves alone what the history of requests looks at. */
  predicate SameAsked(t: Burst, t': Burst) {
    && t'.size == t.size && t'.len == t.len && t'.id == t.id && t'.fpga == t.fpga && t'.base == t.base
    && t'.fixed == t.fixed && t'.enqueues == t.enqueues && t'.enqueued == t.enqueued
  }

  lemma RequestsSame(g: Geometry, table: seq<Burst>, all: seq<Request>, i: nat, t: Burst)
    requires RequestsOk(g, table, all) && i < |table| && SameAsked(table[i], t)
    ensures RequestsOk(g, table[i := t], all)
  {
    hide RequestsOf;
    assert FirstRequests(g, t, i, t.enqueued) == FirstRequests(g, table[i], i, t.enqueued);
  }

  lemma TableSame(g: Geometry, table: seq<Burst>, offers: seq<Offer>, i: nat, t: Burst)
    requires g.Valid() && i < |table| && SameAsked(table[i], t)
    ensures ReadTable(g, table, offers) ==> ReadTable(g, table[i := t], offers)
    ensures WriteTable(g, table, offers) ==> WriteTable(g, table[i := t], offers)
  {
  }

  lemma ReadCallbackHistory(g: Geometry, f: Front, addr: int)
    requires HistoryInv(g, f) && ReadInv(g, f) && InFlight(f.inReads, addr) != []
    ensures var r := ReadCallback(g, f, addr); r.Some? ==> HistoryInv(g, r.value)
  {
    hide RequestsOk, ReadTable, WriteTable, OpenLast, WriteQueueOk, StoredOk, Callback, Back, Grouped, BurstsOk,
         QueueOk,
         EntriesOk, OnceOk, PendingOk, BeatsOk, OrderOk, IssuedOk, Sound, Fits;
    var k := CallbackFacts(g, f.rbursts, f.inReads, addr);
    var i := InFlight(f.inReads, addr)[0];
    var t := Callback(g, f.rbursts[i], addr).t;
    RequestsSame(g, f.rbursts, f.past.issued, i, t);
    TableSame(g, f.rbursts, f.past.arOffers, i, t);
  }

  lemma QueueSame(wb: seq<Burst>, open: seq<nat>, q: seq<nat>, i: nat, t: Burst)
    requires WriteQueueOk(wb, open, q) && OpenLast(wb, open) && i < |wb| && SameAsked(wb[i], t)
    ensures WriteQueueOk(wb[i := t], open, q) && OpenLast(wb[i := t], open)
  {
  }

  lemma WriteCallbackHistory(g: Geometry, f: Front, addr: int)
    requires HistoryInv(g, f)
    ensures var r := WriteCallback(f, addr); r.Some? ==> HistoryInv(g, r.value)
  {
    hide RequestsOk, ReadTable, WriteTable, OpenLast, WriteQueueOk, StoredOk;
    var q := InFlight(f.inWrites, addr);
    if q != [] && q[0] < |f.wbursts| {
      var i := q[0];
      var t := f.wbursts[i].(beats := f.wbursts[i].beats - 1);
      RequestsSame(g, f.wbursts, f.past.sent, i, t);
      TableSame(g, f.wbursts, f.past.awOffers, i, t);
      QueueSame(f.wbursts, f.openWrites, f.writeQ, i, t);
      StoredSame(f.wbursts, f.openWrites, f.past.stored, i, t);
      AnswerHistory(g, f.(wbursts := f.wbursts[i := t], inWrites := PopAt(f.inWrites, addr)), i);
      hide Answer;
    }
  }

  lemma AnswerHistory(g: Geometry, f: Front, i: nat)
    requires HistoryInv(g, f) && i < |f.wbursts|
    ensures HistoryInv(g, Answer(f, i))
  {
    hide RequestsOk, ReadTable, WriteTable, OpenLast, WriteQueueOk, StoredOk;
  }

  // ---------------------------------------------------------------- one AXI clock

  lemma RequestsNew(g: Geometry, table: seq<Burst>, all: seq<Request>, t: Burst)
    requires RequestsOk(g, table, all) && t.enqueued == 0 <= t.enqueues
    ensures RequestsOk(g, table + [t], all)
  {
    hide RequestsOf;
    assert FirstRequests(g, t, |table|, 0) == [];
    forall i: nat | i < |table + [t]|
        ensures RequestsOf(all, i) == FirstRequests(g, (table + [t])[i], i, (table + [t])[i].enqueued)
        ensures 0 <= (table + [t])[i].enqueued <= (table + [t])[i].enqueues { }
  }

  lemma TableNew(g: Geometry, table: seq<Burst>, offers: seq<Offer>, o: Offer, fixed: bool)
    requires g.Valid() && 0 < o.size && 0 < o.len
    ensures !fixed && ReadTable(g, table, offers) ==> ReadTable(g, table + [Accept(g, o, fixed)], offers + [o])
    ensures fixed == o.fixed && WriteTable(g, table, offers) ==>
        WriteTable(g, table + [Accept(g, o, fixed)], offers + [o])
  {
    hide Enqueues;
  }

  lemma NewAsked(g: Geometry, o: Offer, fixed: bool)
    requires g.Valid() && 0 < o.size && 0 < o.len
    ensures var t := Accept(g, o, fixed); t.enqueued == 0 && 1 <= t.enqueues && t.addr == t.base == o.addr
  {
  }

  lemma ReadTickHistory(g: Geometry, f: Front, i: Inputs)
    requires HistoryInv(g, f) && Sized(i.ar)
    ensures HistoryInv(g, ReadTick(g, f, i))
  {
    hide RequestsOk, ReadTable, WriteTable, OpenLast, WriteQueueOk, StoredOk, Accept;
    if f.arReady && i.ar.Some? {
      NewAsked(g, i.ar.value, false);
      RequestsNew(g, f.rbursts, f.past.issued, Accept(g, i.ar.value, false));
      TableNew(g, f.rbursts, f.past.arOffers, i.ar.value, false);
    }
  }

  lemma DriveTickHistory(g: Geometry, f: Front, i: Inputs)
    requires HistoryInv(g, f)
    ensures HistoryInv(g, DriveTick(f, i))
  {
    hide RequestsOk, ReadTable, WriteTable, OpenLast, WriteQueueOk, StoredOk;
  }

  lemma StoredNew(wb: seq<Burst>, open: seq<nat>, all: seq<Stored>, t: Burst)
    requires StoredOk(wb, open, all) && t.addr == t.base
    ensures StoredOk(wb + [t], open + [|wb|], all)
  {
    var wb' := wb + [t];
    NoneStored(all, |wb|);
    hide StoredOf;
    forall i: nat | i < |wb'| ensures StoredBurst(wb'[i], StoredOf(all, i)) {
      if i < |wb| { assert StoredBurst(wb[i], StoredOf(all, i)); }
    }
  }

  lemma {:induction false} NoneStored(all: seq<Stored>, i: nat)
    requires forall p :: 0 <= p < |all| ==> all[p].tx < i
    ensures StoredOf(all, i) == []
  {
    if all != [] { NoneStored(all[..|all| - 1], i); }
  }

  lemma QueueNew(wb: seq<Burst>, open: seq<nat>, q: seq<nat>, t: Burst)
    requires WriteQueueOk(wb, open, q) && OpenLast(wb, open) && t.enqueued == 0
    ensures WriteQueueOk(wb + [t], open + [|wb|], q) && OpenLast(wb + [t], open + [|wb|])
  {
  }

  lemma AddressTickHistory(g: Geometry, f: Front, i: Inputs)
    requires HistoryInv(g, f) && Sized(i.aw)
    ensures HistoryInv(g, AddressTick(g, f, i))
  {
    hide RequestsOk, ReadTable, WriteTable, OpenLast, WriteQueueOk, StoredOk, Accept;
    if i.aw.Some? && f.awReady {
      var o := i.aw.value;
      var t := Accept(g, o, o.fixed);
      NewAsked(g, o, o.fixed);
      RequestsNew(g, f.wbursts, f.past.sent, t);
      TableNew(g, f.wbursts, f.past.awOffers, o, o.fixed);
      QueueNew(f.wbursts, f.openWrites, f.writeQ, t);
      StoredNew(f.wbursts, f.openWrites, f.past.stored, t);
    }
  }

  lemma StoredSnoc(all: seq<Stored>, x: Stored, j: nat)
    ensures StoredOf(all + [x], j) == StoredOf(all, j) + if x.tx == j then [x.addr] else []
  {
    assert (all + [x])[..|all|] == all;
  }

  lemma BeatStored(t: Burst, addrs: seq<int>, t': Burst)
    requires StoredBurst(t, addrs) && t' == BeatTaken(t).(enqueued := t'.enqueued, beats := t'.beats)
    ensures StoredBurst(t', addrs + [t.addr])
  {
    assert !t.fixed ==> t.base + |addrs| * t.size + t.size == t.base + (|addrs| + 1) * t.size;
    forall p | 0 <= p < |addrs + [t.addr]| ensures (addrs + [t.addr])[p] == StoreAddr(t', p) {
      assert p < |addrs| ==> addrs[p] == StoreAddr(t, p);
    }
  }

  /** A beat goes to the oldest open write, at the address where that stands. */
  lemma StoredMore(wb: seq<Burst>, open: seq<nat>, open': seq<nat>, all: seq<Stored>, t: Burst)
    requires StoredOk(wb, open, all) && OpenLast(wb, open) && open != [] && open[0] < |wb|
    requires t == BeatTaken(wb[open[0]]).(enqueued := t.enqueued, beats := t.beats)
    requires |open| - 1 <= |open'| <= |open|
    ensures StoredOk(wb[open[0] := t], open', all + [Stored(open[0], wb[open[0]].addr)])
  {
    var n := open[0];
    var x := Stored(n, wb[n].addr);
    var wb', all' := wb[n := t], all + [x];
    hide StoredOf, StoreAddr;
    forall i: nat | i < |wb'| ensures StoredBurst(wb'[i], StoredOf(all', i)) {
      StoredSnoc(all, x, i);
      assert StoredBurst(wb[i], StoredOf(all, i));
      if i == n { BeatStored(wb[n], StoredOf(all, n), t); }
    }
  }

  lemma MiddleHistory(g: Geometry, f: Front)
    requires HistoryInv(g, f) && f.openWrites != [] && f.openWrites[0] < |f.wbursts|
    ensures HistoryInv(g, MiddleBeat(f))
  {
    var n := f.openWrites[0];
    var t := BeatTaken(f.wbursts[n]);
    hide RequestsOk, ReadTable, WriteTable, OpenLast, WriteQueueOk, StoredOk;
    RequestsSame(g, f.wbursts, f.past.sent, n, t);
    TableSame(g, f.wbursts, f.past.awOffers, n, t);
    QueueSame(f.wbursts, f.openWrites, f.writeQ, n, t);
    StoredMore(f.wbursts, f.openWrites, f.openWrites, f.past.stored, t);
  }

  lemma QueueMore(wb: seq<Burst>, open: seq<nat>, q: seq<nat>)
    requires WriteQueueOk(wb, open, q) && OpenLast(wb, open) && open != [] && open[0] < |wb|
    requires 1 <= wb[open[0]].enqueues
    ensures WriteQueueOk(wb, open[1..], q + [open[0]]) && OpenLast(wb, open[1..]) && wb[open[0]].enqueued == 0
  {
    var n := open[0];
    forall i: nat ensures i in q + [n] <==> i < |wb| - |open[1..]| && wb[i].enqueued < wb[i].enqueues { }
    forall p | 0 <= p < |q| ensures q[p] < n { assert q[p] in q; }
  }

  lemma SomeRequests(g: Geometry, wb: seq<Burst>, offers: seq<Offer>, n: nat)
    requires g.Valid() && WriteTable(g, wb, offers) && n < |wb|
    ensures 1 <= wb[n].enqueues
  {
    hide Enqueues;
    assert MadeFrom(g, wb[n], offers[n], offers[n].fixed);
  }

  lemma LastHistory(g: Geometry, f: Front)
    requires HistoryInv(g, f) && f.openWrites != [] && f.openWrites[0] < |f.wbursts|
    ensures HistoryInv(g, LastBeat(f))
  {
    var n := f.openWrites[0];
    hide RequestsOk, ReadTable, WriteTable, OpenLast, WriteQueueOk, StoredOk, BeatTaken;
    SomeRequests(g, f.wbursts, f.past.awOffers, n);
    QueueMore(f.wbursts, f.openWrites, f.writeQ);
    BeatAsked(f.wbursts[n]);
    var t := BeatTaken(f.wbursts[n]).(enqueued := 0, beats := 1);
    RequestsSame(g, f.wbursts, f.past.sent, n, t);
    TableSame(g, f.wbursts, f.past.awOffers, n, t);
    QueueSame(f.wbursts, f.openWrites[1..], f.writeQ + [n], n, t);
    StoredMore(f.wbursts, f.openWrites, f.openWrites[1..], f.past.stored, t);
  }

  lemma BeatAsked(t: Burst)
    ensures SameAsked(t, BeatTaken(t))
  {
  }

  lemma DataTickHistory(g: Geometry, f: Front, i: Inputs)
    requires HistoryInv(g, f)
    ensures HistoryInv(g, DataTick(f, i))
  {
    hide RequestsOk, ReadTable, WriteTable, OpenLast, WriteQueueOk, StoredOk, LastBeat, MiddleBeat;
    if f.openWrites != [] && i.w.Some? && f.wReady && f.openWrites[0] < |f.wbursts| {
      if i.w.value { LastHistory(g, f); } else { MiddleHistory(g, f); }
    }
  }

  lemma TickHistory(g: Geometry, f: Front, i: Inputs)
    requires HistoryInv(g, f) && g.Valid() && Sized(i.ar) && Sized(i.aw)
    ensures HistoryInv(g, Tick(g, f, i))
  {
    hide ReadTick, DriveTick, AddressTick, DataTick, HistoryInv;
    var f1 := ReadTick(g, f, i);
    ReadTickHistory(g, f, i);
    DriveTickHistory(g, f1, i);
    AddressTickHistory(g, DriveTick(f1, i), i);
    DataTickHistory(g, AddressTick(g, DriveTick(f1, i), i), i);
    ReadyHistory(g, DataTick(AddressTick(g, DriveTick(f1, i), i), i));
  }

  lemma ReadyHistory(g: Geometry, f: Front)
    requires HistoryInv(g, f)
    ensures HistoryInv(g, ReadyTick(f))
  {
    hide RequestsOk, ReadTable, WriteTable, OpenLast, WriteQueueOk, StoredOk;
  }

  lemma InitialHistory(g: Geometry)
    requires g.Valid()
    ensures HistoryInv(g, Initial())
  {
  }

  // ---------------------------------------------------------------- how much of a burst is asked for

  /** The requests of a burst reach its last byte if and only if it is no longer than a DRAM burst or a
      whole number of them; a remainder is not asked for. */
  lemma RequestsCover(g: Geometry, size: int, len: int)
    requires g.Valid() && 0 < size && 0 < len
    ensures len * size <= Enqueues(g, size, len) * g.Chunk() <==>
        len * size <= g.Chunk() || len * size % g.Chunk() == 0
  {
    var n, c := len * size, g.Chunk();
    Arith.MulPos(g.ddr, g.burst);
    Arith.MulPos(len, size);
    Arith.Split(n, c);
    if n < c { Arith.Small(n, c); }
  }
}
