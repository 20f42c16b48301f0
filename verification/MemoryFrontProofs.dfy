/** What every operation of the memory front end keeps. */
module MemoryFrontProofs {
  import opened MemoryBursts
  import opened MemoryFront
  import Arith

  // ---------------------------------------------------------------- reads

  /** A burst whose answers are all there fits its flags: the last answer of any other leaves them. */
  ghost predicate Sound(g: Geometry, t: Burst) {
    Live(g, t) && (AllBack(g, t) ==> Fits(g, t)) && 0 <= t.enqueued <= t.enqueues
  }

  ghost predicate BurstsOk(g: Geometry, rb: seq<Burst>) {
    g.Valid() && forall i :: 0 <= i < |rb| ==> Sound(g, rb[i])
  }

  ghost predicate Ascending(q: seq<nat>) { forall p, r :: 0 <= p < r < |q| ==> q[p] < q[r] }

  /** The queue holds the bursts with requests left, oldest first. */
  ghost predicate QueueOk(rb: seq<Burst>, q: seq<nat>) {
    Ascending(q) && forall i: nat :: i in q <==> i < |rb| && rb[i].enqueued < rb[i].enqueues
  }

  ghost predicate OnGrid(g: Geometry, t: Burst, a: int) { exists k :: 0 <= k < t.enqueues && a == RequestAddr(g, t, k) }

  ghost predicate EntriesOk(g: Geometry, rb: seq<Burst>, m: map<int, seq<nat>>) {
    forall a, p :: 0 <= p < |InFlight(m, a)| ==> InFlight(m, a)[p] < |rb| && OnGrid(g, rb[InFlight(m, a)[p]], a)
  }

  ghost predicate NoDup(q: seq<nat>) { forall p, r :: 0 <= p < r < |q| ==> q[p] != q[r] }

  ghost predicate OnceOk(m: map<int, seq<nat>>) { forall a :: NoDup(InFlight(m, a)) }

  /** Burst `i` waits at an address exactly for its requests that are issued and not back. */
  ghost predicate PendingAt(g: Geometry, t: Burst, i: nat, m: map<int, seq<nat>>)
    requires Grouped(g, t)
  {
    forall k :: 0 <= k < t.enqueues ==>
      && (i in InFlight(m, RequestAddr(g, t, k)) <==> k < t.enqueued && !Back(g, t, k))
      && (Back(g, t, k) ==> k < t.enqueued)
  }

  ghost predicate PendingOk(g: Geometry, rb: seq<Burst>, m: map<int, seq<nat>>)
    requires BurstsOk(g, rb)
  {
    forall i: nat :: i < |rb| ==> PendingAt(g, rb[i], i, m)
  }

  function Of(all: seq<Tagged>, i: nat): seq<Beat> {
    if all == [] then [] else Of(all[..|all| - 1], i) + if all[|all| - 1].tx == i then [all[|all| - 1].beat] else []
  }

  ghost predicate BeatsOf(g: Geometry, t: Burst, beats: seq<Beat>)
    requires g.Valid()
  {
    |beats| == t.beats && forall p :: 0 <= p < |beats| ==> beats[p] == BeatAt(g, t, p)
  }

  /** The beats of each burst, over all that left and all that wait, are its beats 0, 1, 2, ... */
  ghost predicate BeatsOk(g: Geometry, rb: seq<Burst>, all: seq<Tagged>)
    requires g.Valid()
  {
    && (forall i: nat :: i < |rb| ==> BeatsOf(g, rb[i], Of(all, i)))
    && forall i: nat :: i >= |rb| ==> Of(all, i) == []
  }

  /** A burst starts only when every older burst with its id has sent all its requests. */
  ghost predicate OrderOk(rb: seq<Burst>) {
    forall i, j :: 0 <= i < j < |rb| && rb[i].id == rb[j].id && rb[j].enqueued > 0 ==> rb[i].enqueued == rb[i].enqueues
  }

  predicate Before(a: Request, b: Request) { a.tx < b.tx || (a.tx == b.tx && a.k < b.k) }

  ghost predicate IssuedOk(issued: seq<Request>, rb: seq<Burst>) {
    && (forall p :: 0 <= p < |issued| ==> issued[p].tx < |rb| && 0 <= issued[p].k < rb[issued[p].tx].enqueued)
    && forall p, q :: 0 <= p < q < |issued| && rb[issued[p].tx].id == rb[issued[q].tx].id ==>
         Before(issued[p], issued[q])
  }

  predicate SignalsOk(f: Front) {
    && (f.rValid ==> f.beats != [] && f.rLast == f.beats[0].beat.last)
    && |f.readQ| <= MAX_Q && (f.arReady ==> |f.readQ| < MAX_Q)
  }

  ghost predicate ReadInv(g: Geometry, f: Front) {
    && BurstsOk(g, f.rbursts) && QueueOk(f.rbursts, f.readQ) && EntriesOk(g, f.rbursts, f.inReads) && OnceOk(f.inReads)
    && PendingOk(g, f.rbursts, f.inReads) && BeatsOk(g, f.rbursts, f.past.taken + f.beats) && OrderOk(f.rbursts)
    && IssuedOk(f.past.issued, f.rbursts) && SignalsOk(f)
  }

  // ---------------------------------------------------------------- a read comes back

  lemma GridApart(g: Geometry, t: Burst, k: int, h: int)
    requires g.Valid() && RequestAddr(g, t, k) == RequestAddr(g, t, h)
    ensures k == h
  {
    Arith.MulPos(g.ddr, g.burst);
    var c := g.Chunk();
    if k < h { Arith.MulMono(1, h - k, c); }
    if h < k { Arith.MulMono(1, k - h, c); }
    assert (h - k) * c == c * h - c * k;
  }

  /** The front of the queue at `a` waits for a request that is issued and not back. */
  lemma FrontPending(g: Geometry, rb: seq<Burst>, m: map<int, seq<nat>>, a: int) returns (k: int)
    requires BurstsOk(g, rb) && EntriesOk(g, rb, m) && PendingOk(g, rb, m) && InFlight(m, a) != []
    ensures var i := InFlight(m, a)[0];
      i < |rb| && 0 <= k < rb[i].enqueued && k < rb[i].enqueues && a == RequestAddr(g, rb[i], k) && !Back(g, rb[i], k)
  {
    var i := InFlight(m, a)[0];
    hide UpToDate, Fits;
    assert OnGrid(g, rb[i], a);
    k :| 0 <= k < rb[i].enqueues && a == RequestAddr(g, rb[i], k);
    assert PendingAt(g, rb[i], i, m);
    assert i in InFlight(m, RequestAddr(g, rb[i], k));
  }

  lemma PopEntries(g: Geometry, rb: seq<Burst>, m: map<int, seq<nat>>, a: int, i: nat, t: Burst)
    requires EntriesOk(g, rb, m) && OnceOk(m) && InFlight(m, a) != [] && i < |rb|
    requires t.fpga == rb[i].fpga && t.enqueues == rb[i].enqueues
    ensures EntriesOk(g, rb[i := t], PopAt(m, a)) && OnceOk(PopAt(m, a))
  {
    var m' := PopAt(m, a);
    hide OnGrid;
    forall b, p | 0 <= p < |InFlight(m', b)|
      ensures InFlight(m', b)[p] < |rb| && OnGrid(g, rb[i := t][InFlight(m', b)[p]], b) {
      var q := if b == a then p + 1 else p;
      assert InFlight(m', b)[p] == InFlight(m, b)[q];
      assert OnGrid(g, rb[InFlight(m, b)[q]], b);
      SameGrid(g, rb[i], t, b);
    }
    forall b ensures NoDup(InFlight(m', b)) {
      assert NoDup(InFlight(m, b));
    }
  }

  lemma SameGrid(g: Geometry, t: Burst, t': Burst, a: int)
    requires t'.fpga == t.fpga && t'.enqueues == t.enqueues
    ensures OnGrid(g, t', a) <==> OnGrid(g, t, a)
  {
    if k :| 0 <= k < t.enqueues && a == RequestAddr(g, t, k) { assert a == RequestAddr(g, t', k); }
    if k :| 0 <= k < t.enqueues && a == RequestAddr(g, t', k) { assert a == RequestAddr(g, t, k); }
  }

  /** Burst `i` at the front of `a` gets request `k` back. */
  lemma PopPending(g: Geometry, t: Burst, t': Burst, i: nat, k: int, m: map<int, seq<nat>>)
    requires Grouped(g, t) && Grouped(g, t') && PendingAt(g, t, i, m) && OnceOk(m) && 0 <= k < t.enqueues
    requires k < t.enqueued
    requires t' == t.(addr := t'.addr, beats := t'.beats, retrieved := t'.retrieved)
    requires forall h :: 0 <= h < t.enqueues ==> (Back(g, t', h) <==> Back(g, t, h) || h == k)
    requires var q := InFlight(m, RequestAddr(g, t, k)); q != [] && q[0] == i
    ensures PendingAt(g, t', i, PopAt(m, RequestAddr(g, t, k)))
  {
    var a := RequestAddr(g, t, k);
    var m' := PopAt(m, a);
    assert NoDup(InFlight(m, a));
    forall h | 0 <= h < t.enqueues
      ensures i in InFlight(m', RequestAddr(g, t', h)) <==> h < t'.enqueued && !(Back(g, t, h) || h == k)
      ensures (Back(g, t, h) || h == k) ==> h < t'.enqueued {
      if h != k && RequestAddr(g, t, h) == a { GridApart(g, t, h, k); }
    }
  }

  lemma OtherPending(g: Geometry, t: Burst, j: nat, i: nat, a: int, m: map<int, seq<nat>>)
    requires Grouped(g, t) && PendingAt(g, t, j, m) && i != j && InFlight(m, a) != [] && InFlight(m, a)[0] == i
    ensures PendingAt(g, t, j, PopAt(m, a))
  {
    hide Grouped, Back;
    var m' := PopAt(m, a);
    forall b ensures j in InFlight(m', b) <==> j in InFlight(m, b) {
      if b == a { assert InFlight(m, a) == [i] + InFlight(m', a); }
    }
  }

  lemma OfSnoc(all: seq<Tagged>, x: Tagged, j: nat)
    ensures Of(all + [x], j) == Of(all, j) + if x.tx == j then [x.beat] else []
  {
    assert (all + [x])[..|all|] == all;
  }

  lemma {:induction false} OfTags(all: seq<Tagged>, beats: seq<Beat>, i: nat, j: nat)
    ensures Of(all + Tags(beats, i), j) == if j == i then Of(all, j) + beats else Of(all, j)
    decreases |beats|
  {
    if beats == [] {
      assert all + Tags(beats, i) == all;
      assert Of(all, j) + beats == Of(all, j);
    } else {
      var n := |beats| - 1;
      assert all + Tags(beats, i) == (all + Tags(beats[..n], i)) + [Tagged(beats[n], i)];
      hide Of;
      OfTags(all, beats[..n], i, j);
      OfSnoc(all + Tags(beats[..n], i), Tagged(beats[n], i), j);
      assert beats[..n] + [beats[n]] == beats;
    }
  }

  lemma BeatsCallback(g: Geometry, rb: seq<Burst>, all: seq<Tagged>, i: nat, t: Burst, beats: seq<Beat>)
    requires g.Valid() && BeatsOk(g, rb, all) && i < |rb|
    requires t == rb[i].(addr := t.addr, beats := t.beats, retrieved := t.retrieved) && |beats| == t.beats - rb[i].beats
    requires forall p :: 0 <= p < |beats| ==> beats[p] == BeatAt(g, rb[i], rb[i].beats + p)
    ensures BeatsOk(g, rb[i := t], all + Tags(beats, i))
  {
    hide Of, Tags;
    var rb', all' := rb[i := t], all + Tags(beats, i);
    forall j: nat | j < |rb'| ensures BeatsOf(g, rb'[j], Of(all', j)) {
      OfTags(all, beats, i, j);
      assert BeatsOf(g, rb[j], Of(all, j));
      if j == i { BeatsGrow(g, rb[i], t, Of(all, i), beats); }
    }
    forall j: nat | j >= |rb'| ensures Of(all', j) == [] { OfTags(all, beats, i, j); }
  }

  lemma BeatsGrow(g: Geometry, t: Burst, t': Burst, a: seq<Beat>, b: seq<Beat>)
    requires g.Valid() && BeatsOf(g, t, a)
    requires t' == t.(addr := t'.addr, beats := t'.beats, retrieved := t'.retrieved) && |b| == t'.beats - t.beats
    requires forall p :: 0 <= p < |b| ==> b[p] == BeatAt(g, t, t.beats + p)
    ensures BeatsOf(g, t', a + b)
  {
    forall p | 0 <= p < |a + b| ensures (a + b)[p] == BeatAt(g, t', p) {
      if p >= |a| { assert (a + b)[p] == b[p - |a|]; }
    }
  }

  /** Two tables whose burst `i` differs only in what a callback changes agree on ids and requests. */
  predicate Progressed(t: Burst, t': Burst) { t' == t.(addr := t'.addr, beats := t'.beats, retrieved := t'.retrieved) }

  lemma TableProgress(g: Geometry, rb: seq<Burst>, i: nat, t: Burst, q: seq<nat>, issued: seq<Request>)
    requires i < |rb| && Progressed(rb[i], t) && QueueOk(rb, q) && OrderOk(rb) && IssuedOk(issued, rb)
    ensures QueueOk(rb[i := t], q) && OrderOk(rb[i := t]) && IssuedOk(issued, rb[i := t])
  {
  }

  lemma BurstProgress(g: Geometry, rb: seq<Burst>, i: nat, t: Burst)
    requires BurstsOk(g, rb) && i < |rb| && Sound(g, t)
    ensures BurstsOk(g, rb[i := t])
  {
    hide Sound;
  }

  lemma PendingProgress(g: Geometry, rb: seq<Burst>, i: nat, t: Burst, k: int, m: map<int, seq<nat>>)
    requires BurstsOk(g, rb) && i < |rb| && Progressed(rb[i], t) && BurstsOk(g, rb[i := t]) && PendingOk(g, rb, m)
    requires OnceOk(m)
    requires 0 <= k < rb[i].enqueued && k < rb[i].enqueues && Grouped(g, t)
    requires forall h :: 0 <= h < t.enqueues ==> (Back(g, t, h) <==> Back(g, rb[i], h) || h == k)
    requires var q := InFlight(m, RequestAddr(g, rb[i], k)); q != [] && q[0] == i
    ensures PendingOk(g, rb[i := t], PopAt(m, RequestAddr(g, rb[i], k)))
  {
    var a := RequestAddr(g, rb[i], k);
    var rb' := rb[i := t];
    assert Grouped(g, t) by { assert rb'[i] == t; }
    hide UpToDate, Back, PendingAt;
    forall j: nat | j < |rb'| ensures PendingAt(g, rb'[j], j, PopAt(m, a)) {
      assert PendingAt(g, rb[j], j, m);
      if j == i { PopPending(g, rb[i], t, i, k, m); } else { OtherPending(g, rb[j], j, i, a, m); }
    }
  }

  lemma CallbackFacts(g: Geometry, rb: seq<Burst>, m: map<int, seq<nat>>, a: int) returns (k: int)
    requires BurstsOk(g, rb) && EntriesOk(g, rb, m) && PendingOk(g, rb, m) && InFlight(m, a) != []
    ensures var i := InFlight(m, a)[0];
      && i < |rb| && 0 <= k < rb[i].enqueued && k < rb[i].enqueues && a == RequestAddr(g, rb[i], k)
      && 0 <= rb[i].beats <= Beats(g, rb[i]) && Grouped(g, rb[i])
      && var e := Callback(g, rb[i], a);
        && (e.ok <==> Fits(g, rb[i]) || exists h :: 0 <= h < rb[i].enqueues && h != k && !Back(g, rb[i], h))
        && Progressed(rb[i], e.t) && Grouped(g, e.t) && (e.ok ==> Sound(g, e.t))
        && (forall h :: 0 <= h < rb[i].enqueues ==> (Back(g, e.t, h) <==> Back(g, rb[i], h) || h == k))
        && |e.beats| == e.t.beats - rb[i].beats
        && (forall p :: 0 <= p < |e.beats| ==> e.beats[p] == BeatAt(g, rb[i], rb[i].beats + p))
  {
    k := FrontPending(g, rb, m, a);
    var i := InFlight(m, a)[0];
    assert Sound(g, rb[i]);
    LiveBounds(g, rb[i]);
    CallbackStep(g, rb[i], k);
    SameFit(g, rb[i], Callback(g, rb[i], a).t);
  }

  /** The answer at `addr` is the last one of a burst that does not fit its flags. */
  ghost predicate Overruns(g: Geometry, t: Burst, addr: int)
    requires Grouped(g, t)
  {
    !Fits(g, t) && forall h :: 0 <= h < t.enqueues && RequestAddr(g, t, h) != addr ==> Back(g, t, h)
  }

  lemma LastOf(g: Geometry, t: Burst, k: int)
    requires Grouped(g, t) && 0 <= k < t.enqueues
    ensures Overruns(g, t, RequestAddr(g, t, k)) <==>
        !(Fits(g, t) || exists h :: 0 <= h < t.enqueues && h != k && !Back(g, t, h))
  {
    forall h | 0 <= h < t.enqueues ensures RequestAddr(g, t, h) != RequestAddr(g, t, k) <==> h != k {
      if RequestAddr(g, t, h) == RequestAddr(g, t, k) { GridApart(g, t, h, k); }
    }
  }

  /** A read callback for an address at which a burst waits leaves the flags if and only if it is the
      last answer of a burst that does not fit; otherwise it keeps the invariant. */
  lemma ReadCallbackKeeps(g: Geometry, f: Front, addr: int)
    requires ReadInv(g, f) && InFlight(f.inReads, addr) != []
    ensures var i := InFlight(f.inReads, addr)[0];
      && i < |f.rbursts| && Grouped(g, f.rbursts[i])
      && (ReadCallback(g, f, addr).None? <==> Overruns(g, f.rbursts[i], addr))
    ensures ReadCallback(g, f, addr).Some? ==> ReadInv(g, ReadCallback(g, f, addr).value)
  {
    hide Callback, UpToDate, Grouped, Back, QueueOk, EntriesOk, OnceOk, PendingOk, BeatsOk, OrderOk, IssuedOk, BurstsOk,
         Sound;
    hide Overruns, Fits;
    assert g.Valid() by { BurstsValid(g, f.rbursts); }
    var k := CallbackFacts(g, f.rbursts, f.inReads, addr);
    var i := InFlight(f.inReads, addr)[0];
    LastOf(g, f.rbursts[i], k);
    if Callback(g, f.rbursts[i], addr).ok { CallbackInv(g, f, addr, k); }
  }

  lemma CallbackInv(g: Geometry, f: Front, addr: int, k: int)
    requires ReadInv(g, f) && InFlight(f.inReads, addr) != []
    requires var i := InFlight(f.inReads, addr)[0];
      && i < |f.rbursts| && 0 <= k < f.rbursts[i].enqueued && k < f.rbursts[i].enqueues
      && addr == RequestAddr(g, f.rbursts[i], k)
      && 0 <= f.rbursts[i].beats <= Beats(g, f.rbursts[i]) && Grouped(g, f.rbursts[i])
      && var e := Callback(g, f.rbursts[i], addr);
        && e.ok && Progressed(f.rbursts[i], e.t) && Grouped(g, e.t) && Sound(g, e.t)
        && (forall h :: 0 <= h < f.rbursts[i].enqueues ==> (Back(g, e.t, h) <==> Back(g, f.rbursts[i], h) || h == k))
        && |e.beats| == e.t.beats - f.rbursts[i].beats
        && (forall p :: 0 <= p < |e.beats| ==> e.beats[p] == BeatAt(g, f.rbursts[i], f.rbursts[i].beats + p))
    ensures ReadCallback(g, f, addr).Some? && ReadInv(g, ReadCallback(g, f, addr).value)
  {
    hide Callback, UpToDate, Grouped, Back, QueueOk, EntriesOk, OnceOk, PendingOk, BeatsOk, OrderOk, IssuedOk, BurstsOk,
         Sound;
    BurstsValid(g, f.rbursts);
    var i := InFlight(f.inReads, addr)[0];
    var e := Callback(g, f.rbursts[i], addr);
    BurstProgress(g, f.rbursts, i, e.t);
    PopEntries(g, f.rbursts, f.inReads, addr, i, e.t);
    PendingProgress(g, f.rbursts, i, e.t, k, f.inReads);
    TableProgress(g, f.rbursts, i, e.t, f.readQ, f.past.issued);
    BeatsCallback(g, f.rbursts, f.past.taken + f.beats, i, e.t, e.beats);
    assert f.past.taken + (f.beats + Tags(e.beats, i)) == f.past.taken + f.beats + Tags(e.beats, i);
  }

  lemma BurstsValid(g: Geometry, rb: seq<Burst>)
    requires BurstsOk(g, rb)
    ensures g.Valid()
  {
  }

  // ---------------------------------------------------------------- a read request goes out

  function Sent(t: Burst): Burst { t.(enqueued := t.enqueued + 1) }

  lemma SentLive(g: Geometry, t: Burst)
    requires Sound(g, t) && t.enqueued < t.enqueues
    ensures Sound(g, Sent(t)) && forall k :: 0 <= k < t.enqueues ==> (Back(g, Sent(t), k) <==> Back(g, t, k))
  {
    SameFit(g, t, Sent(t));
    assert forall k :: 0 <= k < t.enqueues ==> Back(g, Sent(t), k) == Back(g, t, k);
  }

  lemma SentBursts(g: Geometry, rb: seq<Burst>, i: nat)
    requires BurstsOk(g, rb) && i < |rb| && rb[i].enqueued < rb[i].enqueues
    ensures BurstsOk(g, rb[i := Sent(rb[i])])
  {
    hide Sound;
    SentLive(g, rb[i]);
  }

  lemma SentQueue(rb: seq<Burst>, q: seq<nat>, p: int)
    requires QueueOk(rb, q) && 0 <= p < |q|
    ensures q[p] < |rb| && rb[q[p]].enqueued < rb[q[p]].enqueues
    ensures var t := Sent(rb[q[p]]);
      QueueOk(rb[q[p] := t], if t.enqueued >= t.enqueues then Dropped(q, p) else q)
  {
    var i := q[p];
    assert i in q;
    var t := Sent(rb[i]);
    var rb' := rb[i := t];
    if t.enqueued >= t.enqueues {
      var q' := Dropped(q, p);
      forall j: nat ensures j in q' <==> j < |rb'| && rb'[j].enqueued < rb'[j].enqueues {
        DroppedHas(q, p, j);
      }
    }
  }

  lemma DroppedHas(q: seq<nat>, p: int, j: nat)
    requires Ascending(q) && 0 <= p < |q|
    ensures j in Dropped(q, p) <==> j in q && j != q[p]
    ensures Ascending(Dropped(q, p))
  {
    var q' := Dropped(q, p);
    forall a | 0 <= a < |q'| ensures q'[a] == q[if a < p then a else a + 1] && q'[a] != q[p] { }
    if j in q && j != q[p] {
      var a :| 0 <= a < |q| && q[a] == j;
      assert q'[if a < p then a else a - 1] == j;
    }
  }

  lemma PushEntries(g: Geometry, rb: seq<Burst>, m: map<int, seq<nat>>, i: nat)
    requires EntriesOk(g, rb, m) && OnceOk(m) && i < |rb| && 0 <= rb[i].enqueued < rb[i].enqueues
    requires i !in InFlight(m, NextAddr(g, rb[i]))
    ensures EntriesOk(g, rb[i := Sent(rb[i])], PushAt(m, NextAddr(g, rb[i]), i))
    ensures OnceOk(PushAt(m, NextAddr(g, rb[i]), i))
  {
    var a := NextAddr(g, rb[i]);
    var m', rb' := PushAt(m, a, i), rb[i := Sent(rb[i])];
    assert OnGrid(g, rb[i], a);
    hide OnGrid;
    forall b, p | 0 <= p < |InFlight(m', b)|
        ensures InFlight(m', b)[p] < |rb| && OnGrid(g, rb'[InFlight(m', b)[p]], b) {
      SameGrid(g, rb[i], rb'[i], b);
      if p < |InFlight(m, b)| { assert OnGrid(g, rb[InFlight(m, b)[p]], b); }
    }
    forall b ensures NoDup(InFlight(m', b)) { assert NoDup(InFlight(m, b)); }
  }

  lemma PushElsewhere(g: Geometry, t: Burst, i: nat, h: int, k: int, m: map<int, seq<nat>>)
    requires g.Valid()
    ensures h != k ==>
        InFlight(PushAt(m, RequestAddr(g, t, k), i), RequestAddr(g, t, h)) == InFlight(m, RequestAddr(g, t, h))
  {
    if RequestAddr(g, t, h) == RequestAddr(g, t, k) { GridApart(g, t, h, k); }
  }

  lemma PushPending(g: Geometry, t: Burst, i: nat, m: map<int, seq<nat>>)
    requires Grouped(g, t) && Grouped(g, Sent(t)) && PendingAt(g, t, i, m) && 0 <= t.enqueued < t.enqueues
    requires forall k :: 0 <= k < t.enqueues ==> (Back(g, Sent(t), k) <==> Back(g, t, k))
    ensures i !in InFlight(m, NextAddr(g, t)) && PendingAt(g, Sent(t), i, PushAt(m, NextAddr(g, t), i))
  {
    var m' := PushAt(m, NextAddr(g, t), i);
    forall h | 0 <= h < t.enqueues
      ensures i in InFlight(m', RequestAddr(g, Sent(t), h)) <==> h < t.enqueued + 1 && !Back(g, t, h)
      ensures Back(g, t, h) ==> h < t.enqueued {
      assert RequestAddr(g, Sent(t), h) == RequestAddr(g, t, h);
      PushElsewhere(g, t, i, h, t.enqueued, m);
    }
    hide Back, Grouped, RequestAddr;
  }

  lemma OthersPush(g: Geometry, t: Burst, j: nat, i: nat, a: int, m: map<int, seq<nat>>)
    requires Grouped(g, t) && PendingAt(g, t, j, m) && i != j
    ensures PendingAt(g, t, j, PushAt(m, a, i))
  {
    hide Grouped, Back;
    forall b ensures j in InFlight(PushAt(m, a, i), b) <==> j in InFlight(m, b) { }
  }

  lemma PendingSent(g: Geometry, rb: seq<Burst>, i: nat, m: map<int, seq<nat>>)
    requires BurstsOk(g, rb) && PendingOk(g, rb, m) && i < |rb| && rb[i].enqueued < rb[i].enqueues
    requires BurstsOk(g, rb[i := Sent(rb[i])])
    ensures i !in InFlight(m, NextAddr(g, rb[i]))
    ensures PendingOk(g, rb[i := Sent(rb[i])], PushAt(m, NextAddr(g, rb[i]), i))
  {
    var rb' := rb[i := Sent(rb[i])];
    assert Grouped(g, rb'[i]);
    hide UpToDate, Back, PendingAt;
    assert PendingAt(g, rb[i], i, m);
    SentLive(g, rb[i]);
    PushPending(g, rb[i], i, m);
    forall j: nat | j < |rb'| ensures PendingAt(g, rb'[j], j, PushAt(m, NextAddr(g, rb[i]), i)) {
      assert PendingAt(g, rb[j], j, m);
      if j != i { OthersPush(g, rb[j], j, i, NextAddr(g, rb[i]), m); }
    }
  }

  lemma BeatsSent(g: Geometry, rb: seq<Burst>, all: seq<Tagged>, i: nat)
    requires g.Valid() && BeatsOk(g, rb, all) && i < |rb|
    ensures BeatsOk(g, rb[i := Sent(rb[i])], all)
  {
    hide Of;
    forall j: nat | j < |rb| ensures BeatsOf(g, rb[i := Sent(rb[i])][j], Of(all, j)) {
      assert BeatsOf(g, rb[j], Of(all, j));
    }
  }

  /** The burst chosen has no older burst with its id in the queue. */
  lemma OrderSent(rb: seq<Burst>, q: seq<nat>, p: int, issued: seq<Request>, a: int)
    requires QueueOk(rb, q) && OrderOk(rb) && IssuedOk(issued, rb) && 0 <= p < |q| && q[p] < |rb|
    requires forall i :: 0 <= i < |rb| ==> 0 <= rb[i].enqueued <= rb[i].enqueues
    requires forall h :: 0 <= h < p ==> q[h] < |rb| && rb[q[h]].id != rb[q[p]].id
    ensures var i := q[p]; var rb' := rb[i := Sent(rb[i])];
      OrderOk(rb') && IssuedOk(issued + [Request(i, rb[i].enqueued, a)], rb')
  {
    var i := q[p];
    assert i in q;
    var rb' := rb[i := Sent(rb[i])];
    forall j | 0 <= j < i && rb[j].id == rb[i].id ensures rb[j].enqueued == rb[j].enqueues {
      if rb[j].enqueued < rb[j].enqueues { OlderWaits(q, p, j); }
    }
    var more := issued + [Request(i, rb[i].enqueued, a)];
    assert forall a :: 0 <= a < |issued| ==> rb[issued[a].tx].enqueued > 0;
    forall a, b | 0 <= a < b < |more| && rb'[more[a].tx].id == rb'[more[b].tx].id ensures Before(more[a], more[b]) {
    }
  }

  lemma OlderWaits(q: seq<nat>, p: int, j: nat)
    requires Ascending(q) && 0 <= p < |q| && j in q && j < q[p]
    ensures exists h :: 0 <= h < p && q[h] == j
  {
    var h :| 0 <= h < |q| && q[h] == j;
  }

  lemma QueueTable(rb: seq<Burst>, q: seq<nat>)
    requires QueueOk(rb, q)
    ensures InTable(q, rb)
  {
    forall p | 0 <= p < |q| ensures q[p] < |rb| { assert q[p] in q; }
  }

  lemma EnqueuedRange(g: Geometry, rb: seq<Burst>)
    requires BurstsOk(g, rb)
    ensures g.Valid() && forall i :: 0 <= i < |rb| ==> 0 <= rb[i].enqueued <= rb[i].enqueues
  {
    hide Live, Fits;
  }

  /** Sending the next request of an eligible burst keeps the invariant. */
  lemma IssueReadKeeps(g: Geometry, f: Front, p: int)
    requires ReadInv(g, f) && 0 <= p < |f.readQ| && InTable(f.readQ, f.rbursts)
    requires forall h :: 0 <= h < p ==> f.rbursts[f.readQ[h]].id != f.rbursts[f.readQ[p]].id
    ensures ReadInv(g, IssueRead(g, f, p))
  {
    hide BurstsOk, QueueOk, EntriesOk, OnceOk, PendingOk, BeatsOk, OrderOk, IssuedOk;
    var i := f.readQ[p];
    EnqueuedRange(g, f.rbursts);
    SentQueue(f.rbursts, f.readQ, p);
    SentBursts(g, f.rbursts, i);
    PendingSent(g, f.rbursts, i, f.inReads);
    PushEntries(g, f.rbursts, f.inReads, i);
    BeatsSent(g, f.rbursts, f.past.taken + f.beats, i);
    OrderSent(f.rbursts, f.readQ, p, f.past.issued, NextAddr(g, f.rbursts[i]));
  }

  lemma TryReadKeeps(g: Geometry, f: Front, accept: iset<int>)
    requires ReadInv(g, f)
    ensures InTable(f.readQ, f.rbursts) && ReadInv(g, TryRead(g, f, accept))
  {
    QueueTable(f.rbursts, f.readQ);
    hide ReadInv, IssueRead;
    var p := FirstEligible(g, f, accept, 0);
    if p < |f.readQ| { IssueReadKeeps(g, f, p); }
  }

  // ---------------------------------------------------------------- R and AR

  lemma OfferBursts(g: Geometry, rb: seq<Burst>, o: Offer)
    requires BurstsOk(g, rb) && 0 < o.size && 0 < o.len
    ensures var t := Accept(g, o, false); BurstsOk(g, rb + [t]) && t.enqueued == 0 && 1 <= t.enqueues && t.beats == 0
  {
    NewLive(g, o.addr, o.size, o.len, false, o.id, o.fpga);
    var t := Accept(g, o, false);
    assert Sound(g, t) by { assert !Back(g, t, 0); }
    hide Sound;
  }

  lemma OfferPending(g: Geometry, rb: seq<Burst>, m: map<int, seq<nat>>, o: Offer)
    requires BurstsOk(g, rb) && EntriesOk(g, rb, m) && PendingOk(g, rb, m) && 0 < o.size && 0 < o.len
    requires BurstsOk(g, rb + [Accept(g, o, false)])
    ensures var rb' := rb + [Accept(g, o, false)]; EntriesOk(g, rb', m) && PendingOk(g, rb', m)
  {
    var t := Accept(g, o, false);
    var rb' := rb + [t];
    NewLive(g, o.addr, o.size, o.len, false, o.id, o.fpga);
    forall a, p | 0 <= p < |InFlight(m, a)| ensures InFlight(m, a)[p] < |rb'| && OnGrid(g, rb'[InFlight(m, a)[p]], a) {
      assert OnGrid(g, rb[InFlight(m, a)[p]], a);
    }
    hide UpToDate, Fits, OnGrid, Grouped;
    forall i: nat | i < |rb'| ensures Grouped(g, rb'[i]) && PendingAt(g, rb'[i], i, m) {
      if i < |rb| {
        assert PendingAt(g, rb[i], i, m);
      } else {
        forall k | 0 <= k < t.enqueues ensures i !in InFlight(m, RequestAddr(g, t, k)) {
          NotListed(g, rb, m, RequestAddr(g, t, k), i);
        }
      }
    }
  }

  lemma NotListed(g: Geometry, rb: seq<Burst>, m: map<int, seq<nat>>, a: int, i: nat)
    requires EntriesOk(g, rb, m) && i >= |rb|
    ensures i !in InFlight(m, a)
  {
    forall p | 0 <= p < |InFlight(m, a)| ensures InFlight(m, a)[p] != i { }
  }

  lemma OfferTables(g: Geometry, rb: seq<Burst>, q: seq<nat>, all: seq<Tagged>, issued: seq<Request>, t: Burst)
    requires g.Valid() && QueueOk(rb, q) && BeatsOk(g, rb, all) && OrderOk(rb) && IssuedOk(issued, rb)
    requires t.enqueued == 0 && 1 <= t.enqueues && t.beats == 0
    ensures QueueOk(rb + [t], q + [|rb|]) && BeatsOk(g, rb + [t], all) && OrderOk(rb + [t])
    ensures IssuedOk(issued, rb + [t])
  {
    hide Of;
    QueueTable(rb, q);
    var rb' := rb + [t];
    forall i: nat | i < |rb'| ensures BeatsOf(g, rb'[i], Of(all, i)) {
      if i < |rb| { assert BeatsOf(g, rb[i], Of(all, i)); }
    }
    forall i: nat ensures i in q + [|rb|] <==> i < |rb'| && rb'[i].enqueued < rb'[i].enqueues {
      if i < |rb| { assert i in q <==> rb[i].enqueued < rb[i].enqueues; }
    }
  }

  lemma ReadTickKeeps(g: Geometry, f: Front, i: Inputs)
    requires ReadInv(g, f) && Sized(i.ar)
    ensures ReadInv(g, ReadTick(g, f, i).(rValid := false, arReady := false))
  {
    hide BurstsOk, QueueOk, EntriesOk, OnceOk, PendingOk, BeatsOk, OrderOk, IssuedOk;
    BurstsValid(g, f.rbursts);
    if f.beats != [] { assert (f.past.taken + [f.beats[0]]) + f.beats[1..] == f.past.taken + f.beats; }
    if f.arReady && i.ar.Some? {
      var t := Accept(g, i.ar.value, false);
      OfferBursts(g, f.rbursts, i.ar.value);
      OfferPending(g, f.rbursts, f.inReads, i.ar.value);
      OfferTables(g, f.rbursts, f.readQ, f.past.taken + f.beats, f.past.issued, t);
    }
  }
}
