/** One AXI burst on its way through DRAM (runtime/include/core/mem_ctrl.h and the read callback of
    runtime/src/core/mem_ctrl.cc): it is cut into requests of one DRAM burst each, the requests come
    back in any order, and bus beats go out in order as soon as they are complete. */
module MemoryBursts {
  import Arith

  /** Widths in bytes of the AXI and DRAM data buses, and transfers per DRAM burst. */
  datatype Geometry = Geometry(bus: int, ddr: int, burst: int) {
    /** DDR_ENQUEUE_SIZE_BYTES */
    function Chunk(): int { ddr * burst }
    /** axi_ddr_bus_multiplicity */
    function Multiplicity(): int
      requires ddr != 0
    {
      bus / ddr
    }
    /** The AXI bus is as wide as a whole number of DRAM buses. */
    predicate Valid() { 0 < ddr && 0 < burst && 0 < bus && bus % ddr == 0 }
  }

  /** memory_transaction. `retrieved` has one flag per DRAM bus transfer; `base` is the address the
      burst started from. */
  datatype Burst = Burst(addr: int, size: int, len: int, beats: int, fixed: bool, id: int, fpga: int,
                         enqueues: int, enqueued: int, retrieved: seq<bool>, base: int)

  /** The transaction handed to the R channel for one bus beat. */
  datatype Beat = Beat(addr: int, size: int, id: int, last: bool)

  function Enqueues(g: Geometry, size: int, len: int): (n: int)
    requires g.Valid() && 0 < size && 0 < len
    ensures 1 <= n
  {
    Arith.MulPos(g.ddr, g.burst);
    var n := len * size / g.Chunk();
    Arith.QuotNonNeg(len * size, g.Chunk());
    if n == 0 then 1 else n
  }

  function NewBurst(g: Geometry, addr: int, size: int, len: int, fixed: bool, id: int, fpga: int): Burst
    requires g.Valid() && 0 < size && 0 < len
  {
    var n := Enqueues(g, size, len);
    Arith.MulPos(n, g.burst);
    Burst(addr, size, len, 0, fixed, id, fpga, n, 0, seq(n * g.burst, _ => false), addr)
  }

  /** axi_bus_beats_length */
  function Beats(g: Geometry, t: Burst): int
    requires g.Valid()
  {
    t.len * t.size / g.bus
  }

  /** First flag from `p` on that is not set, or the end of the flags. */
  function FirstUnset(flags: seq<bool>, p: nat): (q: nat)
    requires p <= |flags|
    ensures p <= q <= |flags|
    ensures forall i :: p <= i < q ==> flags[i]
    ensures q < |flags| ==> !flags[q]
    decreases |flags| - p
  {
    if p == |flags| || !flags[p] then p else FirstUnset(flags, p + 1)
  }

  lemma FirstUnsetIs(flags: seq<bool>, p: nat, q: nat)
    requires p <= q <= |flags| && (forall i :: p <= i < q ==> flags[i]) && (q < |flags| ==> !flags[q])
    ensures FirstUnset(flags, p) == q
  {
  }

  /** dramsim_hasBeatReady: `Outside` when it would read a flag past the end. */
  datatype Look = Outside | Absent | Present

  function HasBeatReady(g: Geometry, t: Burst): Look
    requires g.Valid() && 0 <= t.beats
  {
    if t.beats == Beats(g, t) then Absent
    else
      var p := t.beats * g.Multiplicity();
      if !(0 <= p <= |t.retrieved|) then Outside
      else
        var q := FirstUnset(t.retrieved, p);
        if q >= p + g.Multiplicity() then Present else if q < |t.retrieved| then Absent else Outside
  }

  function NextBeat(g: Geometry, t: Burst): Beat
    requires g.Valid()
  {
    Beat(t.addr, t.size, t.id, t.beats == Beats(g, t) - 1)
  }

  function Advance(t: Burst): Burst { t.(addr := t.addr + t.size, beats := t.beats + 1) }

  datatype Emission = Emission(ok: bool, t: Burst, beats: seq<Beat>)

  /** The loop that lets every complete beat out; not ok when it reads a flag past the end. */
  function Emit(g: Geometry, t: Burst): Emission
    requires g.Valid() && 0 <= t.beats <= Beats(g, t)
    decreases Beats(g, t) - t.beats
  {
    match HasBeatReady(g, t)
    case Absent => Emission(true, t, [])
    case Outside => Emission(false, t, [])
    case Present =>
      var e := Emit(g, Advance(t));
      Emission(e.ok, e.t, [NextBeat(g, t)] + e.beats)
  }

  /** Flags of one DRAM request set, or None past the end. */
  function Retrieve(g: Geometry, t: Burst, addr: int): (r: (bool, Burst))
    requires g.Valid()
  {
    var p := (addr - t.fpga) / g.ddr;
    if 0 <= p && p + g.burst <= |t.retrieved| then
      (true, t.(retrieved := t.retrieved[..p] + seq(g.burst, _ => true) + t.retrieved[p + g.burst..]))
    else (false, t)
  }

  // ---------------------------------------------------------------- beats are the retrieved prefix

  /** The burst has let out exactly the beats that are complete from the front, from `base` on. */
  ghost predicate UpToDate(g: Geometry, t: Burst) {
    && g.Valid() && 0 < t.size && 0 < t.len
    && 0 <= t.beats <= Beats(g, t)
    && t.addr == t.base + t.beats * t.size
    && t.beats * g.Multiplicity() <= FirstUnset(t.retrieved, 0)
    && (t.beats < Beats(g, t) ==> FirstUnset(t.retrieved, 0) < (t.beats + 1) * g.Multiplicity())
  }

  /** The i-th beat of a burst. */
  function BeatAt(g: Geometry, t: Burst, i: int): Beat
    requires g.Valid()
  {
    Beat(t.base + i * t.size, t.size, t.id, i == Beats(g, t) - 1)
  }

  lemma MultiplicityPos(g: Geometry)
    requires g.Valid()
    ensures 0 < g.Multiplicity() && g.bus == g.Multiplicity() * g.ddr
  {
    Arith.Split(g.bus, g.ddr);
    if g.bus / g.ddr <= 0 { Arith.MulMono(g.bus / g.ddr, 0, g.ddr); }
  }

  /** The beats so far are complete. */
  ghost predicate Behind(g: Geometry, t: Burst) {
    && g.Valid() && 0 < t.size && 0 < t.len && 0 <= t.beats <= Beats(g, t)
    && t.addr == t.base + t.beats * t.size
    && t.beats * g.Multiplicity() <= FirstUnset(t.retrieved, 0)
  }

  lemma LookIs(g: Geometry, t: Burst)
    requires Behind(g, t)
    ensures var p, m, f := t.beats * g.Multiplicity(), g.Multiplicity(), FirstUnset(t.retrieved, 0);
      HasBeatReady(g, t) == if t.beats == Beats(g, t) then Absent else if p + m <= f then Present
        else if f < |t.retrieved| then Absent else Outside
  {
    MultiplicityPos(g);
    Arith.MulMono(0, t.beats, g.Multiplicity());
    FirstUnsetIs(t.retrieved, t.beats * g.Multiplicity(), FirstUnset(t.retrieved, 0));
    hide FirstUnset, Beats;
  }

  lemma AdvanceBehind(g: Geometry, t: Burst)
    requires Behind(g, t) && HasBeatReady(g, t) == Present
    ensures t.beats < Beats(g, t) && Behind(g, Advance(t))
  {
    LookIs(g, t);
    hide HasBeatReady, FirstUnset, Beats;
    assert (t.beats + 1) * g.Multiplicity() == t.beats * g.Multiplicity() + g.Multiplicity();
    assert (t.beats + 1) * t.size == t.beats * t.size + t.size;
  }

  /** Beat i leaves with address base + i * size, the final one as last. */
  lemma {:induction false} EmitBeats(g: Geometry, t: Burst)
    requires Behind(g, t)
    ensures var e := Emit(g, t);
      && Behind(g, e.t) && e.t == t.(addr := e.t.addr, beats := e.t.beats) && |e.beats| == e.t.beats - t.beats
      && forall i :: 0 <= i < |e.beats| ==> e.beats[i] == BeatAt(g, t, t.beats + i)
    decreases Beats(g, t) - t.beats
  {
    if HasBeatReady(g, t) == Present {
      AdvanceBehind(g, t);
      hide HasBeatReady, Behind, Beats;
      EmitBeats(g, Advance(t));
    }
  }

  /** The loop goes on to the first incomplete beat. It stays inside the flags unless all flags are
      set and end before the burst does. */
  lemma {:induction false} EmitStops(g: Geometry, t: Burst)
    requires Behind(g, t)
    ensures var e := Emit(g, t);
      && (e.ok <==> FirstUnset(t.retrieved, 0) < |t.retrieved| || Beats(g, t) * g.Multiplicity() <= |t.retrieved|)
      && (e.ok ==> UpToDate(g, e.t))
    decreases Beats(g, t) - t.beats
  {
    if HasBeatReady(g, t) == Present {
      AdvanceBehind(g, t);
      hide HasBeatReady, Behind, UpToDate, FirstUnset;
      EmitStops(g, Advance(t));
    } else {
      hide HasBeatReady, Behind, UpToDate, FirstUnset;
      StopsHere(g, t);
    }
  }

  lemma StopsHere(g: Geometry, t: Burst)
    requires Behind(g, t) && HasBeatReady(g, t) != Present
    ensures HasBeatReady(g, t) == Absent <==>
        FirstUnset(t.retrieved, 0) < |t.retrieved| || Beats(g, t) * g.Multiplicity() <= |t.retrieved|
    ensures HasBeatReady(g, t) == Absent ==> UpToDate(g, t)
  {
    MultiplicityPos(g);
    LookIs(g, t);
    NextBeatEnd(t.beats, Beats(g, t), g.Multiplicity());
    hide HasBeatReady, FirstUnset, Beats;
  }

  lemma NextBeatEnd(b: int, n: int, m: int)
    requires 0 < m
    ensures (b + 1) * m == b * m + m
    ensures b < n ==> b * m + m <= n * m
  {
    if b < n { Arith.MulMono(b + 1, n, m); }
  }

  // ---------------------------------------------------------------- requests coming back in any order

  function Flag(g: Geometry, k: int, j: int): int { k * g.burst + j }

  /** The flags come in one group per request, set together. */
  ghost predicate Grouped(g: Geometry, t: Burst) {
    && g.Valid() && 1 <= t.enqueues && |t.retrieved| == t.enqueues * g.burst
    && forall k, j :: 0 <= k < t.enqueues && 0 <= j < g.burst ==>
         0 <= Flag(g, k, 0) <= Flag(g, k, j) < |t.retrieved| && t.retrieved[Flag(g, k, j)] == t.retrieved[Flag(g, k, 0)]
  }

  predicate Back(g: Geometry, t: Burst, k: int)
    requires 0 <= Flag(g, k, 0) < |t.retrieved|
  {
    t.retrieved[Flag(g, k, 0)]
  }

  /** DRAM address of request `k`. */
  function RequestAddr(g: Geometry, t: Burst, k: int): int { t.fpga + g.Chunk() * k }

  lemma FlagRange(g: Geometry, n: int, k: int, j: int)
    requires g.Valid() && 0 <= k < n && 0 <= j < g.burst
    ensures 0 <= Flag(g, k, 0) <= Flag(g, k, j) < n * g.burst
    ensures Flag(g, k, j) / g.burst == k && Flag(g, k, j) % g.burst == j
  {
    Arith.Pack(k, j, n, g.burst);
    Arith.MulMono(0, k, g.burst);
  }

  lemma RequestFlag(g: Geometry, t: Burst, k: int)
    requires g.Valid()
    ensures (RequestAddr(g, t, k) - t.fpga) / g.ddr == Flag(g, k, 0)
  {
    Arith.Assoc(k, g.burst, g.ddr);
    assert g.Chunk() * k == k * g.burst * g.ddr + 0;
    Arith.DivUnique(g.Chunk() * k, g.ddr, k * g.burst, 0);
  }

  /** A request that comes back sets its own group of flags. */
  lemma RetrieveRequest(g: Geometry, t: Burst, k: int)
    requires Grouped(g, t) && 0 <= k < t.enqueues
    ensures var (ok, t') := Retrieve(g, t, RequestAddr(g, t, k));
      && ok && t' == t.(retrieved := t'.retrieved) && |t'.retrieved| == |t.retrieved|
      && forall i :: 0 <= i < |t.retrieved| ==>
           t'.retrieved[i] == (t.retrieved[i] || Flag(g, k, 0) <= i < Flag(g, k, 0) + g.burst)
  {
    RequestFlag(g, t, k);
    FlagRange(g, t.enqueues, k, g.burst - 1);
    var p := Flag(g, k, 0);
    assert p + g.burst <= |t.retrieved|;
    var r := t.retrieved[..p] + seq(g.burst, _ => true) + t.retrieved[p + g.burst..];
    assert forall i :: 0 <= i < |r| ==> r[i] == (t.retrieved[i] || p <= i < p + g.burst);
  }

  lemma RetrieveGrouped(g: Geometry, t: Burst, k: int)
    requires Grouped(g, t) && 0 <= k < t.enqueues
    ensures var t' := Retrieve(g, t, RequestAddr(g, t, k)).1;
      Grouped(g, t') && forall h :: 0 <= h < t.enqueues ==> (Back(g, t', h) <==> Back(g, t, h) || h == k)
  {
    RetrieveRequest(g, t, k);
    var t' := Retrieve(g, t, RequestAddr(g, t, k)).1;
    hide Retrieve;
    forall h, j | 0 <= h < t.enqueues && 0 <= j < g.burst
      ensures 0 <= Flag(g, h, 0) <= Flag(g, h, j) < |t'.retrieved|
      ensures t'.retrieved[Flag(g, h, j)] == (Back(g, t, h) || h == k) {
      FlagRange(g, t.enqueues, h, j);
      FlagRange(g, t.enqueues, h, 0);
      FlagRange(g, t.enqueues, k, 0);
      GroupOf(g, k, Flag(g, h, j), h, j);
    }
    forall h | 0 <= h < t.enqueues ensures Back(g, t', h) <==> Back(g, t, h) || h == k {
      FlagRange(g, t.enqueues, h, 0);
      assert t'.retrieved[Flag(g, h, 0)] == (Back(g, t, h) || h == k);
    }
  }

  /** Flag `i` = (h, j) lies in group `k` exactly when h == k. */
  lemma GroupOf(g: Geometry, k: int, i: int, h: int, j: int)
    requires g.Valid() && i == Flag(g, h, j) && 0 <= j < g.burst
    ensures Flag(g, k, 0) <= i < Flag(g, k, 0) + g.burst <==> h == k
  {
    if h > k { Arith.MulMono(k + 1, h, g.burst); }
    if h < k { Arith.MulMono(h + 1, k, g.burst); }
  }

  /** Setting flags never shortens the retrieved prefix. */
  lemma PrefixGrows(a: seq<bool>, b: seq<bool>)
    requires |a| == |b| && forall i :: 0 <= i < |a| ==> a[i] ==> b[i]
    ensures FirstUnset(a, 0) <= FirstUnset(b, 0)
  {
    var q := FirstUnset(b, 0);
    if q < |b| { assert !a[q]; }
  }

  /** The prefix reaches the end exactly when every request is back. */
  lemma AllRetrieved(g: Geometry, t: Burst)
    requires Grouped(g, t)
    ensures FirstUnset(t.retrieved, 0) == |t.retrieved| <==> forall k :: 0 <= k < t.enqueues ==> Back(g, t, k)
  {
    var q := FirstUnset(t.retrieved, 0);
    if q == |t.retrieved| {
      forall k | 0 <= k < t.enqueues ensures Back(g, t, k) { FlagRange(g, t.enqueues, k, 0); }
    } else {
      var k, j := q / g.burst, q % g.burst;
      Arith.Split(q, g.burst);
      Arith.DivBelow(q, t.enqueues, g.burst);
      assert Flag(g, k, j) == q;
      FlagRange(g, t.enqueues, k, j);
      assert !Back(g, t, k);
    }
  }

  /** All beats of the burst find their flags. */
  predicate Fits(g: Geometry, t: Burst)
    requires g.Valid()
  {
    Beats(g, t) * g.Multiplicity() <= |t.retrieved|
  }

  /** The read callback for one request: flags, then every complete beat. */
  function Callback(g: Geometry, t: Burst, addr: int): Emission
    requires g.Valid() && 0 <= t.beats <= Beats(g, t)
  {
    var (ok, t1) := Retrieve(g, t, addr);
    if ok then Emit(g, t1) else Emission(false, t, [])
  }

  /** All answers of the burst are there. */
  ghost predicate AllBack(g: Geometry, t: Burst)
    requires Grouped(g, t)
  {
    forall k :: 0 <= k < t.enqueues ==> Back(g, t, k)
  }

  /** A burst between callbacks. */
  ghost predicate Live(g: Geometry, t: Burst) { Grouped(g, t) && UpToDate(g, t) }

  lemma CallbackStep(g: Geometry, t: Burst, k: int)
    requires Live(g, t) && 0 <= k < t.enqueues
    ensures var e := Callback(g, t, RequestAddr(g, t, k));
      && e.t == t.(addr := e.t.addr, beats := e.t.beats, retrieved := e.t.retrieved)
      && |e.beats| == e.t.beats - t.beats && |e.t.retrieved| == |t.retrieved|
      && (forall i :: 0 <= i < |e.beats| ==> e.beats[i] == BeatAt(g, t, t.beats + i))
      && Grouped(g, e.t) && (forall h :: 0 <= h < t.enqueues ==> (Back(g, e.t, h) <==> Back(g, t, h) || h == k))
      && (e.ok <==> Fits(g, t) || exists h :: 0 <= h < t.enqueues && h != k && !Back(g, t, h))
      && (e.ok ==> Live(g, e.t))
  {
    var (ok, t1) := Retrieve(g, t, RequestAddr(g, t, k));
    RetrieveGrouped(g, t, k);
    RetrieveBehind(g, t, k);
    AllRetrieved(g, t1);
    hide Retrieve, FirstUnset, Grouped, Emit, UpToDate, Behind;
    EmitBeats(g, t1);
    EmitStops(g, t1);
    RegroupAfter(g, t1, Emit(g, t1).t);
  }

  lemma RetrieveBehind(g: Geometry, t: Burst, k: int)
    requires Live(g, t) && 0 <= k < t.enqueues
    ensures var (ok, t1) := Retrieve(g, t, RequestAddr(g, t, k));
      && ok && t1 == t.(retrieved := t1.retrieved) && |t1.retrieved| == |t.retrieved| && Behind(g, t1)
  {
    var (ok, t1) := Retrieve(g, t, RequestAddr(g, t, k));
    RetrieveRequest(g, t, k);
    hide Retrieve, FirstUnset, Grouped;
    PrefixGrows(t.retrieved, t1.retrieved);
  }

  lemma RegroupAfter(g: Geometry, t: Burst, t': Burst)
    requires Grouped(g, t) && t' == t.(addr := t'.addr, beats := t'.beats)
    ensures Grouped(g, t') && forall h :: 0 <= h < t.enqueues ==> (Back(g, t', h) <==> Back(g, t, h))
  {
  }

  lemma NewLive(g: Geometry, addr: int, size: int, len: int, fixed: bool, id: int, fpga: int)
    requires g.Valid() && 0 < size && 0 < len
    ensures var t := NewBurst(g, addr, size, len, fixed, id, fpga);
      Live(g, t) && forall k :: 0 <= k < t.enqueues ==> !Back(g, t, k)
  {
    var t := NewBurst(g, addr, size, len, fixed, id, fpga);
    MultiplicityPos(g);
    forall k, j | 0 <= k < t.enqueues && 0 <= j < g.burst ensures 0 <= Flag(g, k, 0) <= Flag(g, k, j) < |t.retrieved| {
      FlagRange(g, t.enqueues, k, j);
    }
    Arith.MulPos(len, size);
    Arith.QuotNonNeg(len * size, g.bus);
    Arith.MulPos(t.enqueues, g.burst);
    assert !t.retrieved[0];
  }

  /** The callbacks for a series of requests of one burst, in the order in which DRAM answers them. */
  function Answered(g: Geometry, t: Burst, order: seq<int>): (e: Emission)
    requires g.Valid() && 0 <= t.beats <= Beats(g, t)
    ensures e.ok ==> 0 <= e.t.beats <= Beats(g, e.t)
  {
    if order == [] then Emission(true, t, [])
    else
      var e := Answered(g, t, order[..|order| - 1]);
      if !e.ok then e
      else
        var c := Callback(g, e.t, RequestAddr(g, e.t, order[|order| - 1]));
        Emission(c.ok && 0 <= c.t.beats <= Beats(g, c.t), c.t, e.beats + c.beats)
  }

  /** Requests of the burst, each answered at most once. */
  ghost predicate Distinct(t: Burst, order: seq<int>) {
    && (forall i :: 0 <= i < |order| ==> 0 <= order[i] < t.enqueues)
    && forall i, j :: 0 <= i < j < |order| ==> order[i] != order[j]
  }

  /** What has come of burst `t` after the answers in `order`: beats 0, 1, 2, ... and no more than
      those whose flags are all set from the front. */
  ghost predicate InOrder(g: Geometry, t: Burst, order: seq<int>, t': Burst, beats: seq<Beat>) {
    && Live(g, t') && t' == t.(addr := t'.addr, beats := t'.beats, retrieved := t'.retrieved)
    && |t'.retrieved| == |t.retrieved| && |beats| == t'.beats
    && (forall i :: 0 <= i < |beats| ==> beats[i] == BeatAt(g, t, i))
    && BackAre(g, t', order)
  }

  ghost predicate BackAre(g: Geometry, t: Burst, order: seq<int>)
    requires Grouped(g, t)
  {
    forall k :: 0 <= k < t.enqueues ==> (Back(g, t, k) <==> k in order)
  }

  /** Some request is unanswered. */
  ghost predicate Missing(t: Burst, order: seq<int>) { exists k :: 0 <= k < t.enqueues && k !in order }

  lemma StillMissing(g: Geometry, t: Burst, prior: seq<int>, k: int)
    requires Grouped(g, t) && BackAre(g, t, prior)
    ensures (exists h :: 0 <= h < t.enqueues && h != k && !Back(g, t, h)) <==> Missing(t, prior + [k])
  {
    if Missing(t, prior + [k]) {
      var h :| 0 <= h < t.enqueues && h !in prior + [k];
      assert !Back(g, t, h);
    }
    if h :| 0 <= h < t.enqueues && h != k && !Back(g, t, h) { assert h !in prior + [k]; }
  }

  lemma BackMore(g: Geometry, t: Burst, t': Burst, prior: seq<int>, k: int)
    requires Grouped(g, t) && Grouped(g, t') && t.enqueues == t'.enqueues && BackAre(g, t, prior)
    requires forall h :: 0 <= h < t.enqueues ==> (Back(g, t', h) <==> Back(g, t, h) || h == k)
    ensures BackAre(g, t', prior + [k])
  {
  }

  lemma InOrderStep(g: Geometry, t: Burst, prior: seq<int>, k: int, t1: Burst, beats: seq<Beat>)
    requires InOrder(g, t, prior, t1, beats) && 0 <= k < t.enqueues && k !in prior
    ensures 0 <= t1.beats <= Beats(g, t1)
    ensures var c := Callback(g, t1, RequestAddr(g, t1, k));
      && (c.ok <==> Fits(g, t) || Missing(t, prior + [k]))
      && (c.ok ==> InOrder(g, t, prior + [k], c.t, beats + c.beats) && 0 <= c.t.beats <= Beats(g, c.t))
  {
    LiveBounds(g, t1);
    hide UpToDate, Callback, Beats;
    CallbackStep(g, t1, k);
    var c := Callback(g, t1, RequestAddr(g, t1, k));
    assert Fits(g, t1) == Fits(g, t) by { SameFit(g, t, t1); }
    StillMissing(g, t1, prior, k);
    BackMore(g, t1, c.t, prior, k);
    hide Grouped, Back, BackAre;
    if c.ok {
      LiveBounds(g, c.t);
      BeatsFrom(g, t, t1, beats, c.beats);
    }
  }

  lemma SameFit(g: Geometry, t: Burst, t': Burst)
    requires g.Valid() && t'.len == t.len && t'.size == t.size && |t'.retrieved| == |t.retrieved|
    ensures Fits(g, t') == Fits(g, t) && Beats(g, t') == Beats(g, t)
  {
  }

  lemma BeatsFrom(g: Geometry, t: Burst, t1: Burst, a: seq<Beat>, b: seq<Beat>)
    requires g.Valid() && t1 == t.(addr := t1.addr, beats := t1.beats, retrieved := t1.retrieved) && |a| == t1.beats
    requires forall i :: 0 <= i < |a| ==> a[i] == BeatAt(g, t, i)
    requires forall i :: 0 <= i < |b| ==> b[i] == BeatAt(g, t1, t1.beats + i)
    ensures forall i :: 0 <= i < |a + b| ==> (a + b)[i] == BeatAt(g, t, i)
  {
    forall i | 0 <= i < |a + b| ensures (a + b)[i] == BeatAt(g, t, i) {
      if i >= |a| { assert (a + b)[i] == b[i - |a|]; }
    }
  }

  /** A burst in order of its beats, whatever the order of its answers. No flag is read past the end
      if and only if the burst fits or an answer is still missing. */
  lemma {:induction false} BeatReordering(g: Geometry, t: Burst, order: seq<int>)
    requires Live(g, t) && t.beats == 0 && BackAre(g, t, []) && Distinct(t, order)
    ensures var e := Answered(g, t, order);
      && (e.ok <==> Fits(g, t) || Missing(t, order))
      && (e.ok ==> InOrder(g, t, order, e.t, e.beats))
    decreases |order|
  {
    if order == [] {
      assert 0 !in order;
    } else {
      var n := |order| - 1;
      var prior, k := order[..n], order[n];
      assert order == prior + [k] && k !in prior;
      assert Missing(t, prior);
      BeatReordering(g, t, prior);
      hide Callback, InOrder, Live, Missing, BackAre;
      InOrderStep(g, t, prior, k, Answered(g, t, prior).t, Answered(g, t, prior).beats);
    }
  }

  /** With all answers there, a burst that fits has let out all its beats. */
  lemma WholeBurstOut(g: Geometry, t: Burst, order: seq<int>)
    requires Live(g, t) && t.beats == 0 && BackAre(g, t, []) && Distinct(t, order) && Fits(g, t) && !Missing(t, order)
    ensures var e := Answered(g, t, order);
      e.ok && |e.beats| == Beats(g, t) && forall i :: 0 <= i < |e.beats| ==> e.beats[i] == BeatAt(g, t, i)
  {
    BeatReordering(g, t, order);
    var e := Answered(g, t, order);
    hide Answered;
    SameFit(g, t, e.t);
    WholeBurst(g, e.t);
  }

  lemma LiveBounds(g: Geometry, t: Burst)
    requires Live(g, t)
    ensures 0 <= t.beats <= Beats(g, t)
  {
  }

  lemma WholeBurst(g: Geometry, t: Burst)
    requires Live(g, t) && Fits(g, t) && forall k :: 0 <= k < t.enqueues ==> Back(g, t, k)
    ensures t.beats == Beats(g, t)
  {
    AllRetrieved(g, t);
    MultiplicityPos(g);
    if t.beats < Beats(g, t) { Arith.MulMono(t.beats + 1, Beats(g, t), g.Multiplicity()); }
  }

  // ---------------------------------------------------------------- which bursts fit

  /** A burst of full-width beats fits if and only if it is shorter than one DRAM request or a whole
      number of them; it then has one beat per transfer. */
  lemma FullWidthFits(g: Geometry, addr: int, len: int, fixed: bool, id: int, fpga: int)
    requires g.Valid() && 0 < len
    ensures var t := NewBurst(g, addr, g.bus, len, fixed, id, fpga);
      Beats(g, t) == len && (Fits(g, t) <==> len * g.bus < g.Chunk() || len * g.bus % g.Chunk() == 0)
  {
    var t := NewBurst(g, addr, g.bus, len, fixed, id, fpga);
    var bytes, c := len * g.bus, g.Chunk();
    Arith.DivUnique(bytes, g.bus, len, 0);
    MultiplicityPos(g);
    Arith.MulPos(g.ddr, g.burst);
    Arith.MulPos(len, g.bus);
    Arith.Split(bytes, c);
    // bytes on both sides of the comparison
    Arith.Assoc(len, g.Multiplicity(), g.ddr);
    assert len * g.Multiplicity() * g.ddr == bytes;
    Arith.Assoc(t.enqueues, g.burst, g.ddr);
    assert t.enqueues * g.burst * g.ddr == t.enqueues * c;
    ScaleLe(len * g.Multiplicity(), t.enqueues * g.burst, g.ddr);
    if bytes < c { Arith.Small(bytes, c); } else { DivPos(bytes, c); }
  }

  lemma ScaleLe(a: int, b: int, m: int)
    requires 0 < m
    ensures a * m <= b * m <==> a <= b
  {
    if a <= b { Arith.MulMono(a, b, m); } else { Arith.MulMono(b + 1, a, m); }
  }

  lemma DivPos(x: int, m: int)
    requires 0 < m <= x
    ensures 1 <= x / m
  {
    Arith.Split(x, m);
    if x / m <= 0 { Arith.MulMono(x / m, 0, m); }
  }

  /** A burst of beats narrower than the bus gets fewer beats than transfers. */
  lemma NarrowBeats(g: Geometry, t: Burst)
    requires g.Valid() && 0 < t.len && 0 < t.size <= g.bus
    ensures Beats(g, t) == t.len <==> t.size == g.bus
  {
    if t.size == g.bus {
      Arith.DivUnique(t.len * t.size, g.bus, t.len, 0);
    } else {
      Arith.MulMono(t.size + 1, g.bus, t.len);
      assert t.len * t.size < t.len * g.bus;
      Arith.MulPos(t.len, t.size);
      Arith.DivBelow(t.len * t.size, t.len, g.bus);
    }
  }
}
