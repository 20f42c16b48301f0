/** The memory front end as the source runs it (runtime/src/core/mem_ctrl.cc, runtime/src/core/tick.cc,
    runtime/include/core/mem_ctrl.h): loops over flags, beats and queues, and an object updated in
    place. Every method is tied to the function that says what it computes. */
module FrontMachine {
  import opened MemoryBursts
  import opened MemoryFront
  import opened MemoryFrontProofs
  import opened MemoryWriteProofs
  import opened Options
  import Arith

  // ---------------------------------------------------------------- memory_transaction

  method NewTransaction(g: Geometry, addr: int, size: int, len: int, fixed: bool, id: int, fpga: int) returns (t: Burst)
    requires g.Valid() && 0 < size && 0 < len
    ensures t == NewBurst(g, addr, size, len, fixed, id, fpga)
  {
    Arith.MulPos(g.ddr, g.burst);
    var n := len * size / g.Chunk();
    ghost var want := Enqueues(g, size, len);
    if n == 0 {
      n := 1;
    }
    Arith.MulPos(n, g.burst);
    var flags: seq<bool> := [];
    while |flags| < n * g.burst
      invariant |flags| <= n * g.burst && flags == seq(|flags|, _ => false)
    {
      flags := flags + [false];
    }
    t := Burst(addr, size, len, 0, fixed, id, fpga, n, 0, flags, addr);
  }

  method HasBeat(g: Geometry, t: Burst) returns (r: Look)
    requires g.Valid() && 0 <= t.beats
    ensures r == HasBeatReady(g, t)
  {
    if t.beats == Beats(g, t) {
      return Absent;
    }
    MultiplicityPos(g);
    Arith.MulMono(0, t.beats, g.Multiplicity());
    var p := t.beats * g.Multiplicity();
    if p > |t.retrieved| {
      return Outside;
    }
    ghost var q := FirstUnset(t.retrieved, p);
    var i := 0;
    while i < g.Multiplicity()
      invariant 0 <= i <= g.Multiplicity() && p + i <= q
    {
      if p + i >= |t.retrieved| {
        return Outside;
      }
      if !t.retrieved[p + i] {
        return Absent;
      }
      i := i + 1;
    }
    return Present;
  }

  method EmitBeatsOf(g: Geometry, start: Burst) returns (ok: bool, t: Burst, beats: seq<Beat>)
    requires g.Valid() && 0 <= start.beats <= Beats(g, start)
    ensures Emission(ok, t, beats) == Emit(g, start)
  {
    t, beats := start, [];
    var look := HasBeat(g, t);
    while look == Present
      invariant 0 <= t.beats <= Beats(g, t) && look == HasBeatReady(g, t)
      invariant var e := Emit(g, t); Emit(g, start) == Emission(e.ok, e.t, beats + e.beats)
      decreases Beats(g, t) - t.beats
    {
      EmitOne(g, t);
      var done := t.beats == Beats(g, t) - 1;
      var beat := Beat(t.addr, t.size, t.id, done);
      assert beats + ([beat] + Emit(g, Advance(t)).beats) == (beats + [beat]) + Emit(g, Advance(t)).beats;
      t := t.(addr := t.addr + t.size, beats := t.beats + 1);
      beats := beats + [beat];
      look := HasBeat(g, t);
    }
    ok := look == Absent;
    assert beats + [] == beats;
  }

  lemma EmitOne(g: Geometry, t: Burst)
    requires g.Valid() && 0 <= t.beats <= Beats(g, t) && HasBeatReady(g, t) == Present
    ensures t.beats < Beats(g, t) && Beats(g, Advance(t)) == Beats(g, t)
    ensures var e := Emit(g, Advance(t)); Emit(g, t) == Emission(e.ok, e.t, [NextBeat(g, t)] + e.beats)
  {
  }

  method SetFlags(g: Geometry, start: Burst, addr: int) returns (ok: bool, t: Burst)
    requires g.Valid()
    ensures (ok, t) == Retrieve(g, start, addr)
  {
    t := start;
    var p := (addr - t.fpga) / g.ddr;
    if !(0 <= p && p + g.burst <= |t.retrieved|) {
      return false, t;
    }
    var i := 0;
    while i < g.burst
      invariant 0 <= i <= g.burst
      invariant t == start.(retrieved := start.retrieved[..p] + seq(i, _ => true) + start.retrieved[p + i..])
    {
      assert seq(i + 1, _ => true) == seq(i, _ => true) + [true];
      t := t.(retrieved := t.retrieved[p + i := true]);
      i := i + 1;
    }
    return true, t;
  }

  /** The addresses at which DRAM takes a request. */
  ghost function Taking(accept: int -> bool): iset<int> { iset a: int | accept(a) }

  /** What sends a write leaves the read side alone. */
  lemma KeepsReads(g: Geometry, f: Front, f': Front)
    requires FrontInv(g, f) && WriteInv(f')
    requires f' == f.(wbursts := f'.wbursts, writeQ := f'.writeQ, inWrites := f'.inWrites,
                     past := f.past.(sent := f'.past.sent))
    ensures FrontInv(g, f')
  {
    hide WriteInv, BurstsOk, QueueOk, EntriesOk, OnceOk, PendingOk, BeatsOk, OrderOk, IssuedOk;
    ReadFrame(g, f, f');
  }

  lemma KeepsWrites(g: Geometry, f: Front, f': Front)
    requires FrontInv(g, f) && ReadInv(g, f')
    requires f' == f.(rbursts := f'.rbursts, readQ := f'.readQ, inReads := f'.inReads,
                     past := f.past.(issued := f'.past.issued))
    ensures FrontInv(g, f')
  {
    hide OpenOk, CountersOk, RepliesOk, ReadInv;
    WriteFrame(f, f');
  }

  lemma TryWriteFront(g: Geometry, f: Front, taking: iset<int>)
    requires FrontInv(g, f)
    ensures InTable(f.writeQ, f.wbursts) && FrontInv(g, TryWrite(g, f, taking))
  {
    TryWriteKeeps(g, f, taking);
    hide FrontInv, WriteInv, InTable, FirstTaken;
    KeepsReads(g, f, TryWrite(g, f, taking));
  }

  lemma TryReadFront(g: Geometry, f: Front, taking: iset<int>)
    requires FrontInv(g, f)
    ensures InTable(f.readQ, f.rbursts) && FrontInv(g, TryRead(g, f, taking))
  {
    TryReadKeeps(g, f, taking);
    hide FrontInv, ReadInv, InTable, FirstEligible;
    KeepsWrites(g, f, TryRead(g, f, taking));
  }

  /** History with one more read request. */
  function Awaited(past: Past, i: nat, t: Burst, addr: int): Past {
    past.(issued := past.issued + [Request(i, t.enqueued, addr)])
  }

  /** History with one more write request. */
  function Written(past: Past, i: nat, t: Burst, addr: int): Past {
    past.(sent := past.sent + [Request(i, t.enqueued, addr)])
  }

  class FrontEnd {
    const g: Geometry
    var rbursts: seq<Burst>
    var readQ: seq<nat>
    var inReads: map<int, seq<nat>>
    var beats: seq<Tagged>
    var wbursts: seq<Burst>
    var openWrites: seq<nat>
    var writeQ: seq<nat>
    var inWrites: map<int, seq<nat>>
    var toEnqueue: seq<Reply>
    var sendIds: seq<Reply>
    var inFlight: int
    var rValid: bool
    var rLast: bool
    var arReady: bool
    var bValid: bool
    var awReady: bool
    var wReady: bool
    ghost var past: Past

    ghost function Abs(): Front
      reads this
    {
      Front(rbursts, readQ, inReads, beats, wbursts, openWrites, writeQ, inWrites, toEnqueue, sendIds, inFlight,
            rValid, rLast, arReady, bValid, awReady, wReady, past)
    }

    ghost predicate Valid()
      reads this
    {
      g.Valid() && FrontInv(g, Abs())
    }

    constructor (geometry: Geometry)
      requires geometry.Valid()
      ensures Valid() && g == geometry && Abs() == Initial()
    {
      hide FrontInv;
      g := geometry;
      rbursts, readQ, inReads, beats := [], [], map[], [];
      wbursts, openWrites, writeQ, inWrites := [], [], [], map[];
      toEnqueue, sendIds, inFlight := [], [], 0;
      rValid, rLast, arReady, bValid, awReady, wReady := false, false, false, false, false, false;
      past := Past([], [], [], [], [], [], [], {});
      InitialFront(geometry);
    }

    /** Returns false where the source takes the front of an empty queue or leaves the flags. */
    method ReadCallback(addr: int) returns (ok: bool)
      requires g.Valid() && BurstsOk(g, rbursts) && EntriesOk(g, rbursts, inReads)
      modifies this`rbursts, this`inReads, this`beats
      ensures MemoryFront.ReadCallback(g, old(Abs()), addr) == if ok then Some(Abs()) else None
    {
      var q := InFlight(inReads, addr);
      if q == [] {
        return false;
      }
      var i := q[0];
      assert i < |rbursts| && 0 <= rbursts[i].beats <= Beats(g, rbursts[i]);
      hide BurstsOk, EntriesOk, Emit, Retrieve, Tags, PopAt, Beats, Callback;
      var t, out;
      ok, t, out := TakeAnswer(g, rbursts[i], addr);
      if ok {
        rbursts, beats, inReads := rbursts[i := t], beats + Tags(out, i), PopAt(inReads, addr);
      }
    }

    /** One answer for a burst: its flags are set, and the beats that are ready leave. */
    static method TakeAnswer(g: Geometry, start: Burst, addr: int) returns (ok: bool, t: Burst, out: seq<Beat>)
      requires g.Valid() && 0 <= start.beats <= Beats(g, start)
      ensures var e := Callback(g, start, addr); ok == e.ok && (ok ==> t == e.t && out == e.beats)
    {
      hide Emit, Retrieve, Beats;
      out := [];
      ok, t := SetFlags(g, start, addr);
      if ok {
        KeepsBeats(g, start, addr);
        ok, t, out := EmitBeatsOf(g, t);
      }
    }

    static lemma KeepsBeats(g: Geometry, t: Burst, addr: int)
      requires g.Valid()
      ensures var t' := Retrieve(g, t, addr).1; t'.beats == t.beats && Beats(g, t') == Beats(g, t)
    {
    }

    method WriteCallback(addr: int) returns (ok: bool)
      requires forall a, p :: 0 <= p < |InFlight(inWrites, a)| ==> InFlight(inWrites, a)[p] < |wbursts|
      modifies this`wbursts, this`inWrites, this`toEnqueue, this`past
      ensures MemoryFront.WriteCallback(old(Abs()), addr) == if ok then Some(Abs()) else None
    {
      var q := InFlight(inWrites, addr);
      if q == [] {
        return false;
      }
      var i := q[0];
      hide Answer, PopAt;
      wbursts := wbursts[i := wbursts[i].(beats := wbursts[i].beats - 1)];
      inWrites := PopAt(inWrites, addr);
      AnswerWrite(i);
      return true;
    }

    method AnswerWrite(i: nat)
      requires i < |wbursts|
      modifies this`toEnqueue, this`past
      ensures Abs() == Answer(old(Abs()), i)
    {
      if wbursts[i].beats == 0 {
        toEnqueue := toEnqueue + [Reply(wbursts[i].id, i)];
        past := past.(unanswered := past.unanswered - {i});
      }
    }

    /** Is an older burst with the id of place `p` still in the queue? */
    method FoundHigherPriorityInID(p: int) returns (found: bool)
      requires InTable(readQ, rbursts) && 0 <= p < |readQ|
      ensures found <==> exists h :: 0 <= h < p && rbursts[readQ[h]].id == rbursts[readQ[p]].id
    {
      found := false;
      var h := 0;
      while h < p
        invariant 0 <= h <= p
        invariant found <==> exists k :: 0 <= k < h && rbursts[readQ[k]].id == rbursts[readQ[p]].id
      {
        if rbursts[readQ[h]].id == rbursts[readQ[p]].id {
          found := true;
        }
        h := h + 1;
      }
    }

    method FindRead(accept: int -> bool) returns (p: nat)
      requires InTable(readQ, rbursts)
      ensures p == FirstEligible(g, Abs(), Taking(accept), 0)
    {
      hide RequestAddr;
      ghost var taking := Taking(accept);
      p := 0;
      while p < |readQ|
        invariant p <= |readQ|
        invariant forall h :: 0 <= h < p ==> !Eligible(g, Abs(), h, taking)
      {
        var t := rbursts[readQ[p]];
        if accept(t.fpga) {
          var found := FoundHigherPriorityInID(p);
          if !found && accept(NextAddr(g, t)) {
            assert Eligible(g, Abs(), p, taking);
            return;
          }
        }
        p := p + 1;
      }
    }

    /** The request goes out: its answer is awaited. */
    method AwaitRead(i: nat)
      requires i < |rbursts|
      modifies this`inReads, this`past
      ensures Abs() == old(Abs()).(inReads := PushAt(old(inReads), NextAddr(g, rbursts[i]), i),
                                   past := Awaited(old(past), i, rbursts[i], NextAddr(g, rbursts[i])))
    {
      hide NextAddr, PushAt;
      inReads := PushAt(inReads, NextAddr(g, rbursts[i]), i);
      past := Awaited(past, i, rbursts[i], NextAddr(g, rbursts[i]));
    }

    method SendRead(p: nat)
      requires InTable(readQ, rbursts) && p < |readQ|
      modifies this`rbursts, this`readQ, this`inReads, this`past
      ensures Abs() == IssueRead(g, old(Abs()), p)
    {
      hide NextAddr, Dropped, PushAt;
      var i := readQ[p];
      AwaitRead(i);
      var t := rbursts[i].(enqueued := rbursts[i].enqueued + 1);
      rbursts := rbursts[i := t];
      if t.enqueued >= t.enqueues {
        readQ := Dropped(readQ, p);
      }
    }

    /** The read half of try_to_enqueue_ddr; `request` is what goes to DRAM. */
    method TryToEnqueueRead(accept: int -> bool) returns (request: Option<int>)
      requires Valid()
      modifies this`rbursts, this`readQ, this`inReads, this`past
      ensures Valid() && InTable(old(readQ), old(rbursts)) && Abs() == TryRead(g, old(Abs()), Taking(accept))
      ensures var p := FirstEligible(g, old(Abs()), Taking(accept), 0);
        request == if p < |old(readQ)| then Some(NextAddr(g, old(rbursts)[old(readQ)[p]])) else None
    {
      hide FrontInv, FirstEligible, RequestAddr, IssueRead, Taking;
      TryReadFront(g, Abs(), Taking(accept));
      request := None;
      var p := FindRead(accept);
      if p < |readQ| {
        request := Some(NextAddr(g, rbursts[readQ[p]]));
        SendRead(p);
      }
    }

    method FindWrite(accept: int -> bool) returns (p: nat)
      requires InTable(writeQ, wbursts)
      ensures p == FirstTaken(g, Abs(), Taking(accept), 0)
    {
      hide RequestAddr;
      ghost var taking := Taking(accept);
      p := 0;
      while p < |writeQ|
        invariant p <= |writeQ|
        invariant forall h :: 0 <= h < p ==> NextAddr(g, wbursts[writeQ[h]]) !in taking
      {
        if accept(NextAddr(g, wbursts[writeQ[p]])) {
          return;
        }
        p := p + 1;
      }
    }

    method AwaitWrite(i: nat)
      requires i < |wbursts|
      modifies this`inWrites, this`past
      ensures Abs() == old(Abs()).(inWrites := PushAt(old(inWrites), NextAddr(g, wbursts[i]), i),
                                   past := Written(old(past), i, wbursts[i], NextAddr(g, wbursts[i])))
    {
      hide NextAddr, PushAt;
      inWrites := PushAt(inWrites, NextAddr(g, wbursts[i]), i);
      past := Written(past, i, wbursts[i], NextAddr(g, wbursts[i]));
    }

    method SendWrite(p: nat)
      requires InTable(writeQ, wbursts) && p < |writeQ|
      modifies this`wbursts, this`writeQ, this`inWrites, this`past
      ensures Abs() == IssueWrite(g, old(Abs()), p)
    {
      hide NextAddr, Dropped, PushAt;
      var i := writeQ[p];
      AwaitWrite(i);
      var t := wbursts[i].(enqueued := wbursts[i].enqueued + 1);
      wbursts := wbursts[i := t];
      if t.enqueued >= t.enqueues {
        writeQ := Dropped(writeQ, p);
      }
    }

    /** The write half of try_to_enqueue_ddr. */
    method TryToEnqueueWrite(accept: int -> bool) returns (request: Option<int>)
      requires Valid()
      modifies this`wbursts, this`writeQ, this`inWrites, this`past
      ensures Valid() && InTable(old(writeQ), old(wbursts)) && Abs() == TryWrite(g, old(Abs()), Taking(accept))
      ensures var p := FirstTaken(g, old(Abs()), Taking(accept), 0);
        request == if p < |old(writeQ)| then Some(NextAddr(g, old(wbursts)[old(writeQ)[p]])) else None
    {
      hide FrontInv, FirstTaken, RequestAddr, IssueWrite, Taking;
      TryWriteFront(g, Abs(), Taking(accept));
      request := None;
      var p := FindWrite(accept);
      if p < |writeQ| {
        request := Some(NextAddr(g, wbursts[writeQ[p]]));
        SendWrite(p);
      }
    }

    // -------------------------------------------------------------- tick_signals

    method TakeBeatOnR(i: Inputs)
      modifies this`beats, this`past
      ensures Abs() == BeatOut(old(Abs()), i)
    {
      if rValid && i.rReady && beats != [] {
        if rLast || !beats[0].beat.last {
          past := past.(taken := past.taken + [beats[0]]);
          beats := beats[1..];
        }
      }
    }

    method TickReads(i: Inputs)
      requires g.Valid() && Sized(i.ar)
      modifies this`beats, this`past, this`rbursts, this`readQ
      ensures Abs() == ReadTick(g, old(Abs()), i)
    {
      hide NewBurst, BeatOut;
      OutKeeps(Abs(), i);
      TakeBeatOnR(i);
      if arReady && i.ar.Some? {
        var o := i.ar.value;
        var t := NewTransaction(g, o.addr, o.size, o.len, false, o.id, o.fpga);
        readQ := readQ + [|rbursts|];
        rbursts := rbursts + [t];
        past := past.(arOffers := past.arOffers + [o]);
      }
    }

    static lemma OutKeeps(f: Front, i: Inputs)
      ensures BeatOut(f, i).arReady == f.arReady
    {
    }

    method TakeReplyOnB(i: Inputs)
      modifies this`sendIds, this`inFlight, this`past
      ensures Abs() == TakeReply(old(Abs()), i)
    {
      if i.bReady && bValid && sendIds != [] {
        past := past.(replied := past.replied + [sendIds[0]]);
        sendIds := sendIds[1..];
        inFlight := inFlight - 1;
      }
    }

    method ShowFrontsOnRB()
      modifies this`rValid, this`rLast, this`bValid
      ensures Abs() == ShowFronts(old(Abs()))
    {
      if beats != [] {
        rValid := true;
        rLast := beats[0].beat.last;
      } else {
        rValid := false;
        rLast := false;
      }
      bValid := sendIds != [];
    }

    method MoveReplyUp()
      modifies this`sendIds, this`toEnqueue
      ensures Abs() == MoveReply(old(Abs()))
    {
      if toEnqueue != [] {
        sendIds := sendIds + [toEnqueue[0]];
        toEnqueue := toEnqueue[1..];
      }
    }

    method TickFronts(i: Inputs)
      modifies this`sendIds, this`inFlight, this`past, this`rValid, this`rLast, this`bValid, this`toEnqueue
      ensures Abs() == DriveTick(old(Abs()), i)
    {
      hide TakeReply, ShowFronts, MoveReply;
      TakeReplyOnB(i);
      ShowFrontsOnRB();
      MoveReplyUp();
    }

    method TickAddress(i: Inputs)
      requires g.Valid() && Sized(i.aw)
      modifies this`wbursts, this`openWrites, this`inFlight, this`past
      ensures Abs() == AddressTick(g, old(Abs()), i)
    {
      hide NewBurst;
      if i.aw.Some? && awReady {
        var o := i.aw.value;
        var t := NewTransaction(g, o.addr, o.size, o.len, o.fixed, o.id, o.fpga);
        openWrites := openWrites + [|wbursts|];
        wbursts := wbursts + [t];
        inFlight := inFlight + 1;
        past := past.(awOffers := past.awOffers + [o]);
      }
    }

    method TakeMiddleBeat()
      requires openWrites != [] && openWrites[0] < |wbursts|
      modifies this`wbursts, this`wReady, this`past
      ensures Abs() == MiddleBeat(old(Abs()))
    {
      var n := openWrites[0];
      past := past.(stored := past.stored + [Stored(n, wbursts[n].addr)]);
      wbursts := wbursts[n := BeatTaken(wbursts[n])];
      wReady := true;
    }

    method TakeLastBeat()
      requires openWrites != [] && openWrites[0] < |wbursts|
      modifies this`wbursts, this`openWrites, this`writeQ, this`past, this`wReady
      ensures Abs() == LastBeat(old(Abs()))
    {
      hide HandOver, FinishData;
      CompleteData();
      HandToDram();
    }

    method CompleteData()
      requires openWrites != [] && openWrites[0] < |wbursts|
      modifies this`wbursts, this`past
      ensures Abs() == FinishData(old(Abs()))
    {
      var n := openWrites[0];
      past := past.(stored := past.stored + [Stored(n, wbursts[n].addr)]);
      wbursts := wbursts[n := BeatTaken(wbursts[n]).(enqueued := 0, beats := 1)];
    }

    method HandToDram()
      requires openWrites != []
      modifies this`openWrites, this`writeQ, this`past, this`wReady
      ensures Abs() == HandOver(old(Abs()))
    {
      var n := openWrites[0];
      past := past.(unanswered := past.unanswered + {n});
      wReady := |openWrites| > 1 || inFlight < MAX_WRITES;
      openWrites, writeQ := openWrites[1..], writeQ + [n];
    }

    method TickData(i: Inputs)
      modifies this`wbursts, this`openWrites, this`writeQ, this`past, this`wReady
      ensures Abs() == DataTick(old(Abs()), i)
    {
      hide MiddleBeat, LastBeat;
      if openWrites == [] {
        wReady := inFlight < MAX_WRITES;
      } else if i.w.Some? && wReady && openWrites[0] < |wbursts| {
        if i.w.value {
          TakeLastBeat();
        } else {
          TakeMiddleBeat();
        }
      }
    }

    method RunTick(i: Inputs)
      requires g.Valid() && Sized(i.ar) && Sized(i.aw)
      modifies this
      ensures Abs() == MemoryFront.Tick(g, old(Abs()), i)
    {
      hide ReadTick, DriveTick, AddressTick, DataTick;
      TickReads(i);
      TickFronts(i);
      TickAddress(i);
      TickData(i);
      arReady := |readQ| < MAX_Q;
      awReady := inFlight < MAX_WRITES;
    }

    /** One AXI clock. */
    method Tick(i: Inputs)
      requires Valid() && Sized(i.ar) && Sized(i.aw)
      modifies this
      ensures Valid() && Abs() == MemoryFront.Tick(g, old(Abs()), i)
    {
      hide FrontInv, MemoryFront.Tick;
      TickKeeps(g, Abs(), i);
      RunTick(i);
    }
  }
}
