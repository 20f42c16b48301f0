/** The AXI4 memory front end (runtime/src/core/mem_ctrl.cc, runtime/src/core/tick.cc): bursts
    arrive on AR and on AW and W, their DRAM requests are issued one at a time, DRAM calls back in any
    order, and beats leave on R and replies on B. Bursts live in tables in order of arrival and the
    queues hold their numbers, as the source's queues hold shared pointers. */
module MemoryFront {
  import opened MemoryBursts
  import opened Options

  /** A beat and the number of its burst; a reply and the number of its burst. */
  datatype Tagged = Tagged(beat: Beat, tx: nat)
  datatype Reply = Reply(id: int, tx: nat)

  /** Request `k` of burst `tx`, for `addr`. */
  datatype Request = Request(tx: nat, k: int, addr: int)

  /** A W beat of burst `tx`, written to memory from `addr` on. */
  datatype Stored = Stored(tx: nat, addr: int)

  /** A burst offered on AR or AW, its address already translated. */
  datatype Offer = Offer(addr: int, size: int, len: int, fixed: bool, id: int, fpga: int)

  const MAX_Q := 40
  const MAX_WRITES := 32

  datatype Front = Front(
    // read bursts; ddr_read_q, in_flight_reads, read_transactions
    rbursts: seq<Burst>, readQ: seq<nat>, inReads: map<int, seq<nat>>, beats: seq<Tagged>,
    // write bursts; write_transactions, ddr_write_q, in_flight_writes, b.to_enqueue, b.send_ids, num_in_flight_writes
    wbursts: seq<Burst>, openWrites: seq<nat>, writeQ: seq<nat>, inWrites: map<int, seq<nat>>,
    toEnqueue: seq<Reply>, sendIds: seq<Reply>, inFlight: int,
    // signals driven in the last tick
    rValid: bool, rLast: bool, arReady: bool, bValid: bool, awReady: bool, wReady: bool,
    past: Past)

  /** History: read requests issued and write requests sent, offers taken on AR and on AW, beats taken on W
      and on R, replies taken on B, and the writes that have their data and no reply. */
  datatype Past = Past(
    issued: seq<Request>, sent: seq<Request>, arOffers: seq<Offer>, awOffers: seq<Offer>, stored: seq<Stored>,
    taken: seq<Tagged>, replied: seq<Reply>, unanswered: set<nat>)

  function Initial(): Front {
    Front([], [], map[], [], [], [], [], map[], [], [], 0, false, false, false, false, false, false,
          Past([], [], [], [], [], [], [], {}))
  }

  function InFlight(m: map<int, seq<nat>>, a: int): seq<nat> { if a in m then m[a] else [] }

  function PushAt(m: map<int, seq<nat>>, a: int, i: nat): map<int, seq<nat>> { m[a := InFlight(m, a) + [i]] }

  function PopAt(m: map<int, seq<nat>>, a: int): map<int, seq<nat>>
    requires InFlight(m, a) != []
  {
    m[a := InFlight(m, a)[1..]]
  }

  // ---------------------------------------------------------------- callbacks

  function Tags(beats: seq<Beat>, i: nat): seq<Tagged> {
    seq(|beats|, p requires 0 <= p < |beats| => Tagged(beats[p], i))
  }

  /** DRAM has read `addr`; None where the source takes the front of an empty queue or leaves the
      flags of the burst. */
  function ReadCallback(g: Geometry, f: Front, addr: int): Option<Front>
    requires g.Valid()
  {
    var q := InFlight(f.inReads, addr);
    if q == [] || q[0] >= |f.rbursts| || !(0 <= f.rbursts[q[0]].beats <= Beats(g, f.rbursts[q[0]])) then None
    else
      var i := q[0];
      var e := Callback(g, f.rbursts[i], addr);
      if e.ok then Some(f.(rbursts := f.rbursts[i := e.t], beats := f.beats + Tags(e.beats, i),
                           inReads := PopAt(f.inReads, addr))) else None
  }

  /** Write burst `i` is answered when its count has come down to 0. */
  function Answer(f: Front, i: nat): Front
    requires i < |f.wbursts|
  {
    if f.wbursts[i].beats == 0 then
      f.(toEnqueue := f.toEnqueue + [Reply(f.wbursts[i].id, i)], past := f.past.(unanswered := f.past.unanswered - {i}))
    else f
  }

  /** DRAM has taken the write to `addr`. The first request to come back answers the burst. */
  function WriteCallback(f: Front, addr: int): Option<Front> {
    var q := InFlight(f.inWrites, addr);
    if q == [] || q[0] >= |f.wbursts| then None
    else
      var i := q[0];
      var t := f.wbursts[i].(beats := f.wbursts[i].beats - 1);
      Some(Answer(f.(wbursts := f.wbursts[i := t], inWrites := PopAt(f.inWrites, addr)), i))
  }

  // ---------------------------------------------------------------- requests to DRAM

  predicate InTable(q: seq<nat>, table: seq<Burst>) { forall p :: 0 <= p < |q| ==> q[p] < |table| }

  function NextAddr(g: Geometry, t: Burst): int { RequestAddr(g, t, t.enqueued) }

  /** Read burst number p of the queue may send its next request: DRAM takes its first address and
      its next one, and no older burst with the same id is in the queue. */
  predicate Eligible(g: Geometry, f: Front, p: int, accept: iset<int>)
    requires InTable(f.readQ, f.rbursts) && 0 <= p < |f.readQ|
  {
    var t := f.rbursts[f.readQ[p]];
    && t.fpga in accept
    && (forall h :: 0 <= h < p ==> f.rbursts[f.readQ[h]].id != t.id)
    && NextAddr(g, t) in accept
  }

  ghost function FirstEligible(g: Geometry, f: Front, accept: iset<int>, p: nat): (r: nat)
    requires InTable(f.readQ, f.rbursts) && p <= |f.readQ|
    ensures p <= r <= |f.readQ|
    ensures forall h :: p <= h < r ==> !Eligible(g, f, h, accept)
    ensures r < |f.readQ| ==> Eligible(g, f, r, accept)
    decreases |f.readQ| - p
  {
    if p == |f.readQ| || Eligible(g, f, p, accept) then p else FirstEligible(g, f, accept, p + 1)
  }

  function Dropped(q: seq<nat>, p: int): seq<nat>
    requires 0 <= p < |q|
  {
    q[..p] + q[p + 1..]
  }

  /** Send the next request of the read burst at place `p`. */
  function IssueRead(g: Geometry, f: Front, p: int): Front
    requires InTable(f.readQ, f.rbursts) && 0 <= p < |f.readQ|
  {
    var i := f.readQ[p];
    var t := f.rbursts[i];
    var t1 := t.(enqueued := t.enqueued + 1);
    f.(rbursts := f.rbursts[i := t1], inReads := PushAt(f.inReads, NextAddr(g, t), i),
       past := f.past.(issued := f.past.issued + [Request(i, t.enqueued, NextAddr(g, t))]),
       readQ := if t1.enqueued >= t1.enqueues then Dropped(f.readQ, p) else f.readQ)
  }

  ghost function TryRead(g: Geometry, f: Front, accept: iset<int>): Front
    requires InTable(f.readQ, f.rbursts)
  {
    var p := FirstEligible(g, f, accept, 0);
    if p < |f.readQ| then IssueRead(g, f, p) else f
  }

  ghost function FirstTaken(g: Geometry, f: Front, accept: iset<int>, p: nat): (r: nat)
    requires InTable(f.writeQ, f.wbursts) && p <= |f.writeQ|
    ensures p <= r <= |f.writeQ|
    ensures forall h :: p <= h < r ==> NextAddr(g, f.wbursts[f.writeQ[h]]) !in accept
    ensures r < |f.writeQ| ==> NextAddr(g, f.wbursts[f.writeQ[r]]) in accept
    decreases |f.writeQ| - p
  {
    if p == |f.writeQ| || NextAddr(g, f.wbursts[f.writeQ[p]]) in accept then p else FirstTaken(g, f, accept, p + 1)
  }

  function IssueWrite(g: Geometry, f: Front, p: int): Front
    requires InTable(f.writeQ, f.wbursts) && 0 <= p < |f.writeQ|
  {
    var i := f.writeQ[p];
    var t := f.wbursts[i];
    var t1 := t.(enqueued := t.enqueued + 1);
    f.(wbursts := f.wbursts[i := t1], inWrites := PushAt(f.inWrites, NextAddr(g, t), i),
       past := f.past.(sent := f.past.sent + [Request(i, t.enqueued, NextAddr(g, t))]),
       writeQ := if t1.enqueued >= t1.enqueues then Dropped(f.writeQ, p) else f.writeQ)
  }

  ghost function TryWrite(g: Geometry, f: Front, accept: iset<int>): Front
    requires InTable(f.writeQ, f.wbursts)
  {
    var p := FirstTaken(g, f, accept, 0);
    if p < |f.writeQ| then IssueWrite(g, f, p) else f
  }

  // ---------------------------------------------------------------- one AXI clock

  /** What the accelerator drives: ready on R and B, offers on AR and AW, and a W beat with its last flag. */
  datatype Inputs = Inputs(rReady: bool, ar: Option<Offer>, bReady: bool, aw: Option<Offer>, w: Option<bool>)

  predicate Sized(o: Option<Offer>) { o.Some? ==> 0 < o.value.size && 0 < o.value.len }

  function Accept(g: Geometry, o: Offer, fixed: bool): Burst
    requires g.Valid() && 0 < o.size && 0 < o.len
  {
    NewBurst(g, o.addr, o.size, o.len, fixed, o.id, o.fpga)
  }

  /** A beat leaves the queue when it is taken: as last, or because it cannot be last. */
  function BeatOut(f: Front, i: Inputs): Front {
    if f.rValid && i.rReady && f.beats != [] && (f.rLast || !f.beats[0].beat.last) then
      f.(beats := f.beats[1..], past := f.past.(taken := f.past.taken + [f.beats[0]]))
    else f
  }

  /** R and AR. */
  function ReadTick(g: Geometry, f: Front, i: Inputs): Front
    requires g.Valid() && Sized(i.ar)
  {
    var f1 := BeatOut(f, i);
    if f.arReady && i.ar.Some? then
      f1.(rbursts := f1.rbursts + [Accept(g, i.ar.value, false)], readQ := f1.readQ + [|f1.rbursts|],
          past := f1.past.(arOffers := f1.past.arOffers + [i.ar.value]))
    else f1
  }

  function TakeReply(f: Front, i: Inputs): Front {
    if i.bReady && f.bValid && f.sendIds != [] then
      f.(sendIds := f.sendIds[1..], inFlight := f.inFlight - 1,
         past := f.past.(replied := f.past.replied + [f.sendIds[0]]))
    else f
  }

  function ShowFronts(f: Front): Front {
    f.(rValid := f.beats != [], rLast := f.beats != [] && f.beats[0].beat.last, bValid := f.sendIds != [])
  }

  function MoveReply(f: Front): Front {
    if f.toEnqueue != [] then f.(sendIds := f.sendIds + [f.toEnqueue[0]], toEnqueue := f.toEnqueue[1..]) else f
  }

  /** B is taken; R and B show their fronts; one finished reply moves up. */
  function DriveTick(f: Front, i: Inputs): Front { MoveReply(ShowFronts(TakeReply(f, i))) }

  function AddressTick(g: Geometry, f: Front, i: Inputs): Front
    requires g.Valid() && Sized(i.aw)
  {
    if i.aw.Some? && f.awReady then
      f.(wbursts := f.wbursts + [Accept(g, i.aw.value, i.aw.value.fixed)], openWrites := f.openWrites + [|f.wbursts|],
         inFlight := f.inFlight + 1, past := f.past.(awOffers := f.past.awOffers + [i.aw.value]))
    else f
  }

  function BeatTaken(t: Burst): Burst { t.(beats := t.beats + 1, addr := if t.fixed then t.addr else t.addr + t.size) }

  function MiddleBeat(f: Front): Front
    requires f.openWrites != [] && f.openWrites[0] < |f.wbursts|
  {
    var n := f.openWrites[0];
    f.(wbursts := f.wbursts[n := BeatTaken(f.wbursts[n])], wReady := true,
       past := f.past.(stored := f.past.stored + [Stored(n, f.wbursts[n].addr)]))
  }

  function FinishData(f: Front): (r: Front)
    requires f.openWrites != [] && f.openWrites[0] < |f.wbursts|
    ensures r.openWrites == f.openWrites && |r.wbursts| == |f.wbursts|
  {
    var n := f.openWrites[0];
    f.(wbursts := f.wbursts[n := BeatTaken(f.wbursts[n]).(enqueued := 0, beats := 1)],
       past := f.past.(stored := f.past.stored + [Stored(n, f.wbursts[n].addr)]))
  }

  function HandOver(f: Front): Front
    requires f.openWrites != []
  {
    var n := f.openWrites[0];
    f.(openWrites := f.openWrites[1..], writeQ := f.writeQ + [n],
       past := f.past.(unanswered := f.past.unanswered + {n}),
       wReady := |f.openWrites| > 1 || f.inFlight < MAX_WRITES)
  }

  /** The last beat hands the write to DRAM. */
  function LastBeat(f: Front): Front
    requires f.openWrites != [] && f.openWrites[0] < |f.wbursts|
  {
    HandOver(FinishData(f))
  }

  /** A W beat belongs to the oldest write still taking data. */
  function DataTick(f: Front, i: Inputs): Front {
    if f.openWrites == [] then f.(wReady := f.inFlight < MAX_WRITES)
    else if i.w.Some? && f.wReady && f.openWrites[0] < |f.wbursts| then
      if i.w.value then LastBeat(f) else MiddleBeat(f)
    else f
  }

  function ReadyTick(f: Front): Front { f.(arReady := |f.readQ| < MAX_Q, awReady := f.inFlight < MAX_WRITES) }

  /** A tick would take the front of an empty queue or look outside the table of bursts. */
  predicate Starved(f: Front, i: Inputs) {
    || (f.rValid && i.rReady && f.beats == [])
    || (f.bValid && i.bReady && f.sendIds == [])
    || (f.openWrites != [] && f.openWrites[0] >= |f.wbursts|)
  }

  function Tick(g: Geometry, f: Front, i: Inputs): Front
    requires g.Valid() && Sized(i.ar) && Sized(i.aw)
  {
    ReadyTick(DataTick(AddressTick(g, DriveTick(ReadTick(g, f, i), i), i), i))
  }
}
