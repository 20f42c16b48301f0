/** Write bursts of the memory front end: one reply each, after the last data beat, and the count of
    writes in flight. */
module MemoryWriteProofs {
  import opened MemoryBursts
  import opened MemoryFront
  import opened MemoryFrontProofs

  /** Replies given, on B or on the way there. */
  function Replies(f: Front): seq<Reply> { f.past.replied + f.sendIds + f.toEnqueue }

  /** Writes still taking data, oldest first; they have sent nothing to DRAM. */
  ghost predicate OpenOk(wb: seq<Burst>, open: seq<nat>, m: map<int, seq<nat>>, q: seq<nat>) {
    && Ascending(open) && InTable(open, wb) && InTable(q, wb)
    && (forall p :: 0 <= p < |q| ==> q[p] !in open)
    && forall a, p :: 0 <= p < |InFlight(m, a)| ==> InFlight(m, a)[p] < |wb| && InFlight(m, a)[p] !in open
  }

  /** A write whose data is complete stands at 1 until a request comes back, and below from then on. */
  ghost predicate CountersOk(wb: seq<Burst>, open: seq<nat>, unanswered: set<nat>) {
    forall i: nat ::
      && (i in unanswered <==> i < |wb| && i !in open && wb[i].beats == 1)
      && (i < |wb| && i !in open ==> wb[i].beats <= 1)
  }

  /** Replies carry the id of their write, one per write, and only for writes whose data is complete
      and some request of which is back. */
  ghost predicate RepliesOk(wb: seq<Burst>, open: seq<nat>, replies: seq<Reply>) {
    && (forall p :: 0 <= p < |replies| ==>
          var r := replies[p]; r.tx < |wb| && r.id == wb[r.tx].id && r.tx !in open && wb[r.tx].beats <= 0)
    && forall p, q :: 0 <= p < q < |replies| ==> replies[p].tx != replies[q].tx
  }

  predicate CountOk(f: Front) {
    f.inFlight == |f.openWrites| + |f.past.unanswered| + |f.toEnqueue| + |f.sendIds|
  }

  predicate BoundOk(f: Front) {
    0 <= f.inFlight <= MAX_WRITES && (f.bValid ==> f.sendIds != [])
  }

  ghost predicate WriteInv(f: Front) {
    && OpenOk(f.wbursts, f.openWrites, f.inWrites, f.writeQ) && CountersOk(f.wbursts, f.openWrites, f.past.unanswered)
    && RepliesOk(f.wbursts, f.openWrites, Replies(f)) && CountOk(f) && BoundOk(f)
  }

  lemma WaitingWrite(wb: seq<Burst>, open: seq<nat>, m: map<int, seq<nat>>, q: seq<nat>, a: int)
    requires OpenOk(wb, open, m, q) && InFlight(m, a) != []
    ensures InFlight(m, a)[0] < |wb| && InFlight(m, a)[0] !in open
  {
  }

  /** A write callback for an address at which a burst waits goes through. It answers the burst, with
      its id, if and only if none has answered it before. */
  lemma WriteCallbackKeeps(f: Front, addr: int)
    requires WriteInv(f) && InFlight(f.inWrites, addr) != []
    ensures WriteCallback(f, addr).Some? && WriteInv(WriteCallback(f, addr).value)
    ensures var i, f' := InFlight(f.inWrites, addr)[0], WriteCallback(f, addr).value;
      && i < |f.wbursts| && f'.past.unanswered == f.past.unanswered - {i}
      && f'.toEnqueue == f.toEnqueue + if i in f.past.unanswered then [Reply(f.wbursts[i].id, i)] else []
  {
    hide OpenOk, CountersOk, RepliesOk;
    WaitingWrite(f.wbursts, f.openWrites, f.inWrites, f.writeQ, addr);
    var i := InFlight(f.inWrites, addr)[0];
    var t := f.wbursts[i].(beats := f.wbursts[i].beats - 1);
    PopOpen(f.wbursts, f.openWrites, f.inWrites, f.writeQ, addr, i, t);
    AnswerCounters(f.wbursts, f.openWrites, f.past.unanswered, i);
    AnswerReplies(f.wbursts, f.openWrites, Replies(f), i);
    assert f.past.replied + f.sendIds + (f.toEnqueue + [Reply(t.id, i)]) == Replies(f) + [Reply(t.id, i)];
  }

  lemma PopOpen(wb: seq<Burst>, open: seq<nat>, m: map<int, seq<nat>>, q: seq<nat>, a: int, i: nat, t: Burst)
    requires OpenOk(wb, open, m, q) && InFlight(m, a) != [] && i < |wb|
    ensures OpenOk(wb[i := t], open, PopAt(m, a), q)
  {
    var m' := PopAt(m, a);
    forall b, p | 0 <= p < |InFlight(m', b)| ensures InFlight(m', b)[p] < |wb| && InFlight(m', b)[p] !in open {
      assert InFlight(m', b)[p] == InFlight(m, b)[if b == a then p + 1 else p];
    }
  }

  lemma AnswerCounters(wb: seq<Burst>, open: seq<nat>, unanswered: set<nat>, i: nat)
    requires CountersOk(wb, open, unanswered) && i < |wb| && i !in open
    ensures var t := wb[i].(beats := wb[i].beats - 1);
      && CountersOk(wb[i := t], open, if t.beats == 0 then unanswered - {i} else unanswered)
      && (t.beats == 0 <==> i in unanswered)
  {
  }

  lemma AnswerReplies(wb: seq<Burst>, open: seq<nat>, replies: seq<Reply>, i: nat)
    requires RepliesOk(wb, open, replies) && i < |wb| && i !in open
    ensures var t := wb[i].(beats := wb[i].beats - 1);
      RepliesOk(wb[i := t], open, if t.beats == 0 then replies + [Reply(t.id, i)] else replies)
  {
  }

  /** Sending a request changes nothing that the counts look at. */
  lemma TryWriteKeeps(g: Geometry, f: Front, accept: iset<int>)
    requires WriteInv(f)
    ensures InTable(f.writeQ, f.wbursts) && WriteInv(TryWrite(g, f, accept))
  {
    var p := FirstTaken(g, f, accept, 0);
    if p < |f.writeQ| {
      var i := f.writeQ[p];
      PushOpen(f.wbursts, f.openWrites, f.inWrites, f.writeQ, NextAddr(g, f.wbursts[i]), p);
      SentCounters(f.wbursts, f.openWrites, f.past.unanswered, Replies(f), i);
      hide OpenOk, CountersOk, RepliesOk;
    }
  }

  lemma PushOpen(wb: seq<Burst>, open: seq<nat>, m: map<int, seq<nat>>, q: seq<nat>, a: int, p: int)
    requires OpenOk(wb, open, m, q) && 0 <= p < |q|
    ensures q[p] < |wb| && OpenOk(wb[q[p] := Sent(wb[q[p]])], open, PushAt(m, a, q[p]), q)
    ensures OpenOk(wb[q[p] := Sent(wb[q[p]])], open, PushAt(m, a, q[p]), Dropped(q, p))
  {
    forall h | 0 <= h < |Dropped(q, p)| ensures Dropped(q, p)[h] == q[if h < p then h else h + 1] { }
    var m' := PushAt(m, a, q[p]);
    forall b, h | 0 <= h < |InFlight(m', b)| ensures InFlight(m', b)[h] < |wb| && InFlight(m', b)[h] !in open {
      if h < |InFlight(m, b)| { assert InFlight(m', b)[h] == InFlight(m, b)[h]; }
    }
  }

  lemma SentCounters(wb: seq<Burst>, open: seq<nat>, unanswered: set<nat>, replies: seq<Reply>, i: nat)
    requires CountersOk(wb, open, unanswered) && RepliesOk(wb, open, replies) && i < |wb|
    ensures CountersOk(wb[i := Sent(wb[i])], open, unanswered) && RepliesOk(wb[i := Sent(wb[i])], open, replies)
  {
  }

  // ---------------------------------------------------------------- B, AW and W

  lemma TakeReplyKeeps(f: Front, i: Inputs)
    requires WriteInv(f)
    ensures WriteInv(TakeReply(f, i).(bValid := false))
  {
    hide OpenOk, CountersOk, RepliesOk;
    if f.sendIds != [] { assert (f.past.replied + [f.sendIds[0]]) + f.sendIds[1..] == f.past.replied + f.sendIds; }
  }

  lemma MoveReplyKeeps(f: Front)
    requires WriteInv(f)
    ensures WriteInv(MoveReply(f))
  {
    hide OpenOk, CountersOk, RepliesOk;
    if f.toEnqueue != [] {
      assert f.past.replied + (f.sendIds + [f.toEnqueue[0]]) + f.toEnqueue[1..] ==
          f.past.replied + f.sendIds + f.toEnqueue;
    }
  }

  lemma DriveKeeps(f: Front, i: Inputs)
    requires WriteInv(f)
    ensures WriteInv(DriveTick(f, i))
  {
    TakeReplyKeeps(f, i);
    hide OpenOk, CountersOk, RepliesOk, TakeReply, MoveReply;
    assert WriteInv(ShowFronts(TakeReply(f, i)));
    MoveReplyKeeps(ShowFronts(TakeReply(f, i)));
  }

  /** AW is ready only while another write may come. */
  predicate RoomOk(f: Front) { f.awReady ==> f.inFlight < MAX_WRITES }

  lemma AddressKeeps(g: Geometry, f: Front, i: Inputs)
    requires WriteInv(f) && RoomOk(f) && g.Valid() && Sized(i.aw)
    ensures WriteInv(AddressTick(g, f, i))
  {
    if i.aw.Some? && f.awReady {
      var t := Accept(g, i.aw.value, i.aw.value.fixed);
      OpenNew(f.wbursts, f.openWrites, f.inWrites, f.writeQ, t);
      CountersNew(f.wbursts, f.openWrites, f.past.unanswered, Replies(f), t);
      hide OpenOk, CountersOk, RepliesOk;
    }
  }

  lemma OpenNew(wb: seq<Burst>, open: seq<nat>, m: map<int, seq<nat>>, q: seq<nat>, t: Burst)
    requires OpenOk(wb, open, m, q)
    ensures OpenOk(wb + [t], open + [|wb|], m, q)
  {
  }

  lemma CountersNew(wb: seq<Burst>, open: seq<nat>, unanswered: set<nat>, replies: seq<Reply>, t: Burst)
    requires CountersOk(wb, open, unanswered) && RepliesOk(wb, open, replies)
    ensures CountersOk(wb + [t], open + [|wb|], unanswered) && RepliesOk(wb + [t], open + [|wb|], replies)
  {
    forall p | 0 <= p < |replies| ensures replies[p].tx !in open + [|wb|] { assert replies[p].tx < |wb|; }
  }

  lemma OpenFront(wb: seq<Burst>, open: seq<nat>, m: map<int, seq<nat>>, q: seq<nat>)
    requires OpenOk(wb, open, m, q)
    ensures Ascending(open) && InTable(open, wb)
  {
  }

  lemma LastBeatKeeps(f: Front)
    requires WriteInv(f) && f.openWrites != [] && f.openWrites[0] < |f.wbursts|
    ensures WriteInv(LastBeat(f))
  {
    hide OpenOk, CountersOk, RepliesOk, BeatTaken;
    OpenFront(f.wbursts, f.openWrites, f.inWrites, f.writeQ);
    var t := BeatTaken(f.wbursts[f.openWrites[0]]).(enqueued := 0, beats := 1);
    OpenLess(f.wbursts, f.openWrites, f.inWrites, f.writeQ, t);
    CountersLess(f.wbursts, f.openWrites, f.past.unanswered, Replies(f), t);
  }

  lemma MiddleBeatKeeps(f: Front)
    requires WriteInv(f) && f.openWrites != [] && f.openWrites[0] < |f.wbursts|
    ensures WriteInv(MiddleBeat(f))
  {
    hide OpenOk, CountersOk, RepliesOk, BeatTaken;
    var n := f.openWrites[0];
    CountersBeat(f.wbursts, f.openWrites, f.past.unanswered, Replies(f), n, BeatTaken(f.wbursts[n]));
    OpenBeat(f.wbursts, f.openWrites, f.inWrites, f.writeQ, n, BeatTaken(f.wbursts[n]));
  }

  lemma OpenBeat(wb: seq<Burst>, open: seq<nat>, m: map<int, seq<nat>>, q: seq<nat>, n: nat, t: Burst)
    requires OpenOk(wb, open, m, q) && n < |wb|
    ensures OpenOk(wb[n := t], open, m, q)
  {
  }

  lemma DataKeeps(f: Front, i: Inputs)
    requires WriteInv(f)
    ensures WriteInv(DataTick(f, i))
  {
    hide OpenOk, CountersOk, RepliesOk, LastBeat, MiddleBeat;
    OpenFront(f.wbursts, f.openWrites, f.inWrites, f.writeQ);
    if f.openWrites != [] && i.w.Some? && f.wReady {
      if i.w.value { LastBeatKeeps(f); } else { MiddleBeatKeeps(f); }
    }
  }

  lemma OpenLess(wb: seq<Burst>, open: seq<nat>, m: map<int, seq<nat>>, q: seq<nat>, t: Burst)
    requires OpenOk(wb, open, m, q) && open != []
    ensures OpenOk(wb[open[0] := t], open[1..], m, q + [open[0]])
  {
    forall p | 0 <= p < |open[1..]| ensures open[1..][p] == open[p + 1] && open[1..][p] != open[0] { }
    assert forall x :: x in open[1..] ==> x in open;
  }

  lemma CountersLess(wb: seq<Burst>, open: seq<nat>, unanswered: set<nat>, replies: seq<Reply>, t: Burst)
    requires CountersOk(wb, open, unanswered) && RepliesOk(wb, open, replies) && Ascending(open) && InTable(open, wb)
    requires open != []
    requires t.beats == 1
    ensures open[0] !in unanswered
    ensures CountersOk(wb[open[0] := t], open[1..], unanswered + {open[0]})
    ensures RepliesOk(wb[open[0] := t], open[1..], replies)
  {
    var n := open[0];
    assert n in open;
    forall j: nat ensures j in open <==> j == n || j in open[1..] { assert open == [n] + open[1..]; }
    assert n !in open[1..];
    forall p | 0 <= p < |replies| ensures replies[p].tx != n { }
  }

  lemma CountersBeat(wb: seq<Burst>, open: seq<nat>, unanswered: set<nat>, replies: seq<Reply>, n: nat, t: Burst)
    requires CountersOk(wb, open, unanswered) && RepliesOk(wb, open, replies) && n in open && n < |wb|
    ensures CountersOk(wb[n := t], open, unanswered) && RepliesOk(wb[n := t], open, replies)
  {
    forall p | 0 <= p < |replies| ensures replies[p].tx != n { }
  }

  // ---------------------------------------------------------------- a whole AXI clock

  ghost predicate FrontInv(g: Geometry, f: Front) { ReadInv(g, f) && WriteInv(f) && RoomOk(f) }

  /** The read side looks at its own fields and signals only. */
  predicate SameReads(f: Front, f': Front) {
    && f'.rbursts == f.rbursts && f'.readQ == f.readQ && f'.inReads == f.inReads && f'.past.issued == f.past.issued
    && f'.past.taken == f.past.taken && f'.beats == f.beats
  }

  lemma ReadFrame(g: Geometry, f: Front, f': Front)
    requires ReadInv(g, f) && SignalsOk(f') && SameReads(f, f')
    ensures ReadInv(g, f')
  {
    hide BurstsOk, QueueOk, EntriesOk, OnceOk, PendingOk, BeatsOk, OrderOk, IssuedOk;
    BurstsValid(g, f.rbursts);
  }

  predicate SameWrites(f: Front, f': Front) {
    && f'.wbursts == f.wbursts && f'.openWrites == f.openWrites && f'.inWrites == f.inWrites && f'.writeQ == f.writeQ
    && f'.past.unanswered == f.past.unanswered && f'.toEnqueue == f.toEnqueue && f'.sendIds == f.sendIds
    && f'.past.replied == f.past.replied
    && f'.inFlight == f.inFlight
  }

  lemma WriteFrame(f: Front, f': Front)
    requires WriteInv(f) && BoundOk(f') && SameWrites(f, f')
    ensures WriteInv(f')
  {
    hide OpenOk, CountersOk, RepliesOk;
  }

  lemma WriteTick(g: Geometry, f: Front, i: Inputs)
    requires WriteInv(f) && RoomOk(f) && g.Valid() && Sized(i.ar) && Sized(i.aw)
    ensures WriteInv(Tick(g, f, i)) && RoomOk(Tick(g, f, i))
  {
    hide ReadTick, DriveTick, AddressTick, DataTick, OpenOk, CountersOk, RepliesOk;
    var f1 := ReadTick(g, f, i);
    ReadWrites(g, f, i);
    WriteFrame(f, f1);
    DriveRoom(f1, i);
    var f2 := DriveTick(f1, i);
    DriveKeeps(f1, i);
    AddressKeeps(g, f2, i);
    DataKeeps(AddressTick(g, f2, i), i);
    WriteFrame(DataTick(AddressTick(g, f2, i), i), Tick(g, f, i));
  }

  lemma ReadWrites(g: Geometry, f: Front, i: Inputs)
    requires g.Valid() && Sized(i.ar)
    ensures var f' := ReadTick(g, f, i); SameWrites(f, f') && f'.bValid == f.bValid && f'.awReady == f.awReady
  {
    hide Accept;
  }

  lemma DriveRoom(f: Front, i: Inputs)
    requires RoomOk(f)
    ensures RoomOk(DriveTick(f, i))
  {
  }

  lemma DriveReads(f: Front, i: Inputs)
    ensures var f' := DriveTick(f, i);
      SameReads(f, f') && f'.rValid == (f.beats != []) && f'.rLast == (f.beats != [] && f.beats[0].beat.last)
  {
  }

  lemma AddressReads(g: Geometry, f: Front, i: Inputs)
    requires g.Valid() && Sized(i.aw)
    ensures var f' := AddressTick(g, f, i); SameReads(f, f') && f'.rValid == f.rValid && f'.rLast == f.rLast
  {
    hide Accept;
  }

  lemma DataReads(f: Front, i: Inputs)
    ensures var f' := DataTick(f, i); SameReads(f, f') && f'.rValid == f.rValid && f'.rLast == f.rLast
  {
    hide LastBeat, MiddleBeat;
    if f.openWrites != [] && f.openWrites[0] < |f.wbursts| { BeatReads(f); }
  }

  lemma BeatReads(f: Front)
    requires f.openWrites != [] && f.openWrites[0] < |f.wbursts|
    ensures var f' := LastBeat(f); SameReads(f, f') && f'.rValid == f.rValid && f'.rLast == f.rLast
    ensures var f' := MiddleBeat(f); SameReads(f, f') && f'.rValid == f.rValid && f'.rLast == f.rLast
  {
    hide BeatTaken;
  }

  /** Every AXI clock keeps the invariant, whatever the accelerator offers, and takes nothing from an
      empty queue. */
  lemma TickKeeps(g: Geometry, f: Front, i: Inputs)
    requires FrontInv(g, f) && g.Valid() && Sized(i.ar) && Sized(i.aw)
    ensures !Starved(f, i) && FrontInv(g, Tick(g, f, i))
  {
    NeverStarved(g, f, i);
    WriteTick(g, f, i);
    ReadTickKeeps(g, f, i);
    hide WriteInv, ReadTick, DriveTick, AddressTick, DataTick, BurstsOk, QueueOk, EntriesOk, OnceOk, PendingOk, BeatsOk,
         OrderOk, IssuedOk;
    var f1 := ReadTick(g, f, i);
    DriveReads(f1, i);
    AddressReads(g, DriveTick(f1, i), i);
    DataReads(AddressTick(g, DriveTick(f1, i), i), i);
    ReadFrame(g, f1.(rValid := false, arReady := false), Tick(g, f, i));
  }

  lemma NeverStarved(g: Geometry, f: Front, i: Inputs)
    requires FrontInv(g, f)
    ensures !Starved(f, i)
  {
    hide BurstsOk, QueueOk, EntriesOk, OnceOk, PendingOk, BeatsOk, OrderOk, IssuedOk, CountersOk, RepliesOk;
  }

  lemma InitialFront(g: Geometry)
    requires g.Valid()
    ensures FrontInv(g, Initial())
  {
    InitialReads(g);
    InitialWrites();
    hide ReadInv, WriteInv;
  }

  lemma InitialReads(g: Geometry)
    requires g.Valid()
    ensures ReadInv(g, Initial())
  {
    NoReads(g);
    hide BurstsOk, QueueOk, EntriesOk, OnceOk, PendingOk, BeatsOk, OrderOk, IssuedOk;
    var f := Initial();
    var none: seq<Tagged> := [];
    assert f.past.taken + f.beats == none;
  }

  lemma NoReads(g: Geometry)
    requires g.Valid()
    ensures BurstsOk(g, []) && QueueOk([], []) && EntriesOk(g, [], map[]) && OnceOk(map[]) && PendingOk(g, [], map[])
    ensures BeatsOk(g, [], []) && OrderOk([]) && IssuedOk([], [])
  {
    hide Live, Fits;
  }

  lemma InitialWrites()
    ensures WriteInv(Initial())
  {
    NoWrites();
    hide OpenOk, CountersOk, RepliesOk;
    var none: seq<Reply> := [];
    assert Replies(Initial()) == none;
  }

  lemma NoWrites()
    ensures OpenOk([], [], map[], []) && CountersOk([], [], {}) && RepliesOk([], [], [])
  {
  }
}
