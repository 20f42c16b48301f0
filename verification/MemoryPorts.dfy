/** The five AXI channels of the memory front end: what passes on each in every clock of every run. */
module MemoryPorts {
  import opened MemoryBursts
  import opened MemoryFront
  import opened Options
  import FP = MemoryFrontProofs
  import FW = MemoryWriteProofs

  // ---------------------------------------------------------------- what a clock does on each channel

  /** R: the front beat leaves when it is shown and taken; then the next one is shown. */
  ghost predicate OnR(f: Front, f': Front, i: Inputs) {
    var out := f.rValid && i.rReady;
    && (out ==> f.beats != [])
    && f'.past.taken == f.past.taken + (if out then [f.beats[0]] else [])
    && f'.beats == (if out then f.beats[1..] else f.beats)
    && f'.rValid == (f'.beats != []) && f'.rLast == (f'.beats != [] && f'.beats[0].beat.last)
  }

  /** AR: an offer is taken when the channel is ready, and it is ready while fewer than 40 reads have
      requests left. */
  ghost predicate OnAR(f: Front, f': Front, i: Inputs) {
    && f'.past.arOffers == f.past.arOffers + (if f.arReady && i.ar.Some? then [i.ar.value] else [])
    && f'.readQ == f.readQ + (if f.arReady && i.ar.Some? then [|f.rbursts|] else [])
    && f'.arReady == (|f'.readQ| < 40)
  }

  /** B: the front reply leaves when it is shown and taken; the next one is shown; one more comes up behind. */
  ghost predicate OnB(f: Front, f': Front, i: Inputs) {
    var out := f.bValid && i.bReady;
    && (out ==> f.sendIds != [])
    && f'.past.replied == f.past.replied + (if out then [f.sendIds[0]] else [])
    && var left := if out then f.sendIds[1..] else f.sendIds;
      && f'.bValid == (left != [])
      && (if f.toEnqueue == [] then f'.sendIds == left && f'.toEnqueue == []
          else f'.sendIds == left + [f.toEnqueue[0]] && f'.toEnqueue == f.toEnqueue[1..])
  }

  /** AW: an offer is taken when the channel is ready, and it is ready while fewer than 32 writes have no
      reply taken. */
  ghost predicate OnAW(f: Front, f': Front, i: Inputs) {
    && f'.past.awOffers == f.past.awOffers + (if f.awReady && i.aw.Some? then [i.aw.value] else [])
    && f'.awReady == (f'.inFlight < 32)
  }

  /** The writes that take data in this clock, one offered now among them. */
  function Opened(f: Front, i: Inputs): seq<nat> {
    f.openWrites + if f.awReady && i.aw.Some? then [|f.wbursts|] else []
  }

  /** W: an offered beat is taken whenever a write is open, for the oldest one; its last beat closes it. */
  ghost predicate OnW(f: Front, f': Front, i: Inputs) {
    var open := Opened(f, i);
    if open == [] || i.w == None then f'.openWrites == open && f'.past.stored == f.past.stored
    else
      && |f'.past.stored| == |f.past.stored| + 1 && f'.past.stored[..|f.past.stored|] == f.past.stored
      && f'.past.stored[|f.past.stored|].tx == open[0]
      && f'.openWrites == (if i.w.value then open[1..] else open)
      && f'.writeQ == f.writeQ + (if i.w.value then [open[0]] else [])
  }

  ghost predicate Handshakes(f: Front, f': Front, i: Inputs) {
    OnR(f, f', i) && OnAR(f, f', i) && OnB(f, f', i) && OnAW(f, f', i) && OnW(f, f', i)
  }

  /** W is ready whenever a write is open, and whenever one may be offered. */
  predicate PortsInv(f: Front) { f.openWrites != [] || f.awReady ==> f.wReady }

  // ---------------------------------------------------------------- one clock

  lemma BeatLeaves(g: Geometry, f: Front, i: Inputs)
    requires FP.ReadInv(g, f)
    ensures var out, f' := f.rValid && i.rReady, BeatOut(f, i);
      && (out ==> f.beats != [])
      && f' == f.(beats := if out then f.beats[1..] else f.beats,
                  past := f.past.(taken := f.past.taken + if out then [f.beats[0]] else []))
  {
    hide FP.BurstsOk, FP.QueueOk, FP.EntriesOk, FP.OnceOk, FP.PendingOk, FP.BeatsOk, FP.OrderOk, FP.IssuedOk;
    assert f.past.taken + [] == f.past.taken;
  }

  /** What each of the four stages of a clock does, and leaves alone. */
  ghost predicate ReadStage(f: Front, f': Front, i: Inputs) {
    var out, new_ := f.rValid && i.rReady, f.arReady && i.ar.Some?;
    && (out ==> f.beats != [])
    && f' == f.(beats := if out then f.beats[1..] else f.beats, rbursts := f'.rbursts,
                readQ := f.readQ + if new_ then [|f.rbursts|] else [],
                past := f.past.(taken := f.past.taken + if out then [f.beats[0]] else [],
                                arOffers := f.past.arOffers + if new_ then [i.ar.value] else []))
  }

  ghost predicate ReplyStage(f: Front, f': Front, i: Inputs) {
    var out := f.bValid && i.bReady;
    && (out ==> f.sendIds != [])
    && f'.past == f.past.(replied := f.past.replied + if out then [f.sendIds[0]] else [])
    && f' == f.(past := f'.past, sendIds := f'.sendIds, toEnqueue := f'.toEnqueue, inFlight := f'.inFlight,
                rValid := f.beats != [], rLast := f.beats != [] && f.beats[0].beat.last, bValid := f'.bValid)
    && var left := if out then f.sendIds[1..] else f.sendIds;
      && f'.bValid == (left != [])
      && (if f.toEnqueue == [] then f'.sendIds == left && f'.toEnqueue == []
          else f'.sendIds == left + [f.toEnqueue[0]] && f'.toEnqueue == f.toEnqueue[1..])
  }

  ghost predicate AddressStage(f: Front, f': Front, i: Inputs) {
    var new_ := f.awReady && i.aw.Some?;
    && f' == f.(wbursts := f'.wbursts, openWrites := Opened(f, i), inFlight := f'.inFlight,
                past := f.past.(awOffers := f.past.awOffers + if new_ then [i.aw.value] else []))
    && |f'.wbursts| == |f.wbursts| + (if new_ then 1 else 0)
  }

  ghost predicate DataStage(f: Front, f': Front, i: Inputs) {
    var beat := f.openWrites != [] && i.w.Some?;
    && f' == f.(wbursts := f'.wbursts, openWrites := f'.openWrites, writeQ := f'.writeQ, wReady := f'.wReady,
                past := f'.past)
    && f'.past == f.past.(stored := f'.past.stored, unanswered := f'.past.unanswered)
    && (if f'.openWrites == [] then f'.wReady == (f.inFlight < 32) else f'.wReady)
    && f'.openWrites == (if beat && i.w.value then f.openWrites[1..] else f.openWrites)
    && (if beat then
          && |f'.past.stored| == |f.past.stored| + 1 && f'.past.stored[..|f.past.stored|] == f.past.stored
          && f'.past.stored[|f.past.stored|].tx == f.openWrites[0]
          && f'.writeQ == f.writeQ + (if i.w.value then [f.openWrites[0]] else [])
        else f'.past.stored == f.past.stored && f'.writeQ == f.writeQ)
  }

  lemma ReadPorts(g: Geometry, f: Front, i: Inputs)
    requires FP.ReadInv(g, f) && g.Valid() && Sized(i.ar)
    ensures ReadStage(f, ReadTick(g, f, i), i)
  {
    hide FP.ReadInv, Accept, BeatOut;
    BeatLeaves(g, f, i);
    assert f.readQ + [] == f.readQ && f.past.arOffers + [] == f.past.arOffers;
  }

  lemma ReplyPorts(f: Front, i: Inputs)
    requires f.bValid ==> f.sendIds != []
    ensures ReplyStage(f, DriveTick(f, i), i)
  {
    assert f.past.replied + [] == f.past.replied;
  }

  lemma AddressPorts(g: Geometry, f: Front, i: Inputs)
    requires g.Valid() && Sized(i.aw)
    ensures AddressStage(f, AddressTick(g, f, i), i)
  {
    hide Accept;
    assert f.openWrites + [] == f.openWrites && f.past.awOffers + [] == f.past.awOffers;
  }

  lemma MiddlePorts(f: Front)
    requires f.openWrites != [] && f.openWrites[0] < |f.wbursts|
    ensures var f' := MiddleBeat(f);
      && f' == f.(wbursts := f'.wbursts, wReady := true, past := f'.past)
      && f'.past == f.past.(stored := f.past.stored + [Stored(f.openWrites[0], f.wbursts[f.openWrites[0]].addr)])
  {
    hide BeatTaken;
  }

  lemma LastPorts(f: Front)
    requires f.openWrites != [] && f.openWrites[0] < |f.wbursts|
    ensures var f' := LastBeat(f);
      && f' == f.(wbursts := f'.wbursts, openWrites := f.openWrites[1..], writeQ := f.writeQ + [f.openWrites[0]],
                  wReady := |f.openWrites| > 1 || f.inFlight < 32, past := f'.past)
      && f'.past == f.past.(stored := f.past.stored + [Stored(f.openWrites[0], f.wbursts[f.openWrites[0]].addr)],
                            unanswered := f'.past.unanswered)
  {
    hide BeatTaken;
  }

  /** The W channel, from the state after AW. */
  lemma DataPorts(f: Front, i: Inputs)
    requires f.openWrites != [] ==> f.wReady && f.openWrites[0] < |f.wbursts|
    ensures DataStage(f, DataTick(f, i), i)
  {
    hide MiddleBeat, LastBeat;
    if f.openWrites != [] && i.w.Some? {
      if i.w.value { LastPorts(f); } else { MiddlePorts(f); }
      assert f.writeQ + [] == f.writeQ;
    }
  }

  lemma OpenInside(f: Front, i: Inputs)
    requires FW.WriteInv(f)
    ensures var open := Opened(f, i);
      open != [] ==> open[0] < |f.wbursts| + (if f.awReady && i.aw.Some? then 1 else 0)
    ensures f.bValid ==> f.sendIds != []
  {
    hide FW.CountersOk, FW.RepliesOk;
  }

  lemma StagesR(f: Front, f1: Front, f2: Front, f3: Front, f4: Front, i: Inputs)
    requires ReadStage(f, f1, i) && ReplyStage(f1, f2, i) && AddressStage(f2, f3, i) && DataStage(f3, f4, i)
    ensures OnR(f, ReadyTick(f4), i) && OnAR(f, ReadyTick(f4), i)
  {
  }

  lemma StagesB(f: Front, f1: Front, f2: Front, f3: Front, f4: Front, i: Inputs)
    requires ReadStage(f, f1, i) && ReplyStage(f1, f2, i) && AddressStage(f2, f3, i) && DataStage(f3, f4, i)
    ensures OnB(f, ReadyTick(f4), i)
  {
  }

  lemma StagesW(f: Front, f1: Front, f2: Front, f3: Front, f4: Front, i: Inputs)
    requires ReadStage(f, f1, i) && ReplyStage(f1, f2, i) && AddressStage(f2, f3, i) && DataStage(f3, f4, i)
    ensures OnAW(f, ReadyTick(f4), i) && OnW(f, ReadyTick(f4), i) && PortsInv(ReadyTick(f4))
  {
  }

  lemma UpToData(f: Front, f1: Front, f2: Front, f3: Front, i: Inputs)
    requires ReadStage(f, f1, i) && ReplyStage(f1, f2, i) && AddressStage(f2, f3, i) && PortsInv(f)
    requires var open := Opened(f, i);
      open != [] ==> open[0] < |f.wbursts| + (if f.awReady && i.aw.Some? then 1 else 0)
    ensures f3.openWrites != [] ==> f3.wReady && f3.openWrites[0] < |f3.wbursts|
  {
  }

  lemma UpToReply(f: Front, f1: Front, i: Inputs)
    requires ReadStage(f, f1, i) && (f.bValid ==> f.sendIds != [])
    ensures f1.bValid ==> f1.sendIds != []
  {
  }

  /** A clock hands over on every channel what was shown and taken, and leaves W ready. */
  lemma TickPorts(g: Geometry, f: Front, i: Inputs)
    requires FW.FrontInv(g, f) && PortsInv(f) && g.Valid() && Sized(i.ar) && Sized(i.aw)
    ensures Handshakes(f, Tick(g, f, i), i) && PortsInv(Tick(g, f, i))
  {
    hide FP.ReadInv, FW.WriteInv, ReadTick, DriveTick, AddressTick, DataTick, ReadStage, ReplyStage, AddressStage,
         DataStage, PortsInv, OnR, OnAR, OnB, OnAW, OnW, Opened;
    OpenInside(f, i);
    var f1 := ReadTick(g, f, i);
    ReadPorts(g, f, i);
    UpToReply(f, f1, i);
    var f2 := DriveTick(f1, i);
    ReplyPorts(f1, i);
    var f3 := AddressTick(g, f2, i);
    AddressPorts(g, f2, i);
    UpToData(f, f1, f2, f3, i);
    var f4 := DataTick(f3, i);
    DataPorts(f3, i);
    StagesR(f, f1, f2, f3, f4, i);
    StagesB(f, f1, f2, f3, f4, i);
    StagesW(f, f1, f2, f3, f4, i);
  }
}
