/** Every step of the command protocol keeps the invariant, whatever the interleaving. */
module ProtocolProofs {
  import opened CommandProtocol
  import opened ProtocolInvariant
  import opened Options

  // ---------------------------------------------------------------- frames

  /** The client that has a slot's handle or is claiming it. */
  function Owner(slot: Slot): Option<nat> {
    match slot
    case Flying(_, Claimer(c)) => Some(c)
    case Ready(_, Claimer(c)) => Some(c)
    case Claimed(_, c) => Some(c)
    case _ => None
  }

  /** No slot of a client other than `c` changes, except that responses may arrive. */
  ghost predicate SlotsKept(slots: seq<Slot>, slots': seq<Slot>, c: nat) {
    && |slots| == |slots'|
    && forall i :: 0 <= i < |slots| && Owner(slots[i]).Some? && Owner(slots[i]) != Some(c) ==>
         slots'[i] == slots[i] || (slots[i].Flying? && slots'[i] == Ready(slots[i].cmd, slots[i].who))
  }

  /** Client `c` may move, take or leave locks and change its slots; other clients do not notice. */
  lemma ClientsStep(s: State, s': State, c: nat)
    requires ClientsOk(s.clients, s.slots, s.answers, s.sender, s.holder)
    requires ClientOk(c, PcOf(s'.clients, c), s'.slots, s'.answers, s'.sender, s'.holder)
    requires forall d: nat :: d != c ==> PcOf(s'.clients, d) == PcOf(s.clients, d)
    requires s'.sender == s.sender || (s.sender in {None, Some(c)} && s'.sender in {None, Some(c)})
    requires s'.holder == s.holder || {s.holder, s'.holder} <= {Nobody, ServerHolds, ClientHolds(c)}
    requires SlotsKept(s.slots, s'.slots, c)
    requires forall cmd :: cmd in s.answers ==> cmd in s'.answers && s'.answers[cmd] == s.answers[cmd]
    ensures ClientsOk(s'.clients, s'.slots, s'.answers, s'.sender, s'.holder)
  {
    forall d: nat ensures ClientOk(d, PcOf(s'.clients, d), s'.slots, s'.answers, s'.sender, s'.holder) {
      if d != c { ClientStays(s, s', c, d); }
    }
  }

  lemma ClientStays(s: State, s': State, c: nat, d: nat)
    requires d != c && PcOf(s'.clients, d) == PcOf(s.clients, d)
    requires ClientOk(d, PcOf(s.clients, d), s.slots, s.answers, s.sender, s.holder)
    requires s'.sender == s.sender || (s.sender in {None, Some(c)} && s'.sender in {None, Some(c)})
    requires s'.holder == s.holder || {s.holder, s'.holder} <= {Nobody, ServerHolds, ClientHolds(c)}
    requires SlotsKept(s.slots, s'.slots, c)
    requires forall cmd :: cmd in s.answers ==> cmd in s'.answers && s'.answers[cmd] == s.answers[cmd]
    ensures ClientOk(d, PcOf(s'.clients, d), s'.slots, s'.answers, s'.sender, s'.holder)
  {
    hide PcOf;
  }

  lemma ClientAt(s: State, c: nat)
    requires ClientsOk(s.clients, s.slots, s.answers, s.sender, s.holder)
    ensures ClientOk(c, PcOf(s.clients, c), s.slots, s.answers, s.sender, s.holder)
  {
  }

  // One slot changes, between kinds that a clause does not tell apart.

  lemma StackFrame(slots: seq<Slot>, h: int, x: Slot, freeList: seq<int>, depth: int)
    requires StackOk(slots, freeList, depth) && 0 <= h < |slots| && !slots[h].Free? && !x.Free?
    ensures StackOk(slots[h := x], freeList, depth)
  {
  }

  lemma FlyingFrame(slots: seq<Slot>, h: int, x: Slot, inFlight: map<Key, seq<int>>, register: RegisterPc)
    requires FlyingOk(slots, inFlight, register) && 0 <= h < |slots| && CmdOf(slots, h) == CmdOf([x], 0)
    ensures FlyingOk(slots[h := x], inFlight, register)
  {
    hide Live, CommandKey;
  }

  lemma AimedFrame(targets: iset<Target>, slots: seq<Slot>, h: int, x: Slot)
    requires AimedOk(targets, slots) && 0 <= h < |slots|
    requires x.Flying? ==> x.cmd.target in targets || (slots[h].Flying? && slots[h].cmd == x.cmd)
    ensures AimedOk(targets, slots[h := x])
  {
  }

  lemma CmdsFrame(slots: seq<Slot>, h: int, x: Slot, q: seq<int>)
    requires 0 <= h < |slots| && CmdOf(slots, h) == CmdOf([x], 0)
    ensures CmdsOf(slots[h := x], q) == CmdsOf(slots, q)
  {
  }

  lemma RoutingFrame(targets: iset<Target>, hardware: map<Target, seq<Cmd>>, register: RegisterPc,
                     arriving: Option<Cmd>,
                     slots: seq<Slot>, h: int, x: Slot, inFlight: map<Key, seq<int>>)
    requires RoutingOk(targets, hardware, register, arriving, slots, inFlight)
    requires 0 <= h < |slots| && CmdOf(slots, h) == CmdOf([x], 0)
    ensures RoutingOk(targets, hardware, register, arriving, slots[h := x], inFlight)
  {
    hide CmdsOf, Live, Line, Somes, CommandKey;
    forall t | t in targets ensures RoutedAt(hardware, register, arriving, slots[h := x], inFlight, t) {
      assert RoutedAt(hardware, register, arriving, slots, inFlight, t);
      CmdsFrame(slots, h, x, Live(inFlight, register, CommandKey(t)));
    }
  }

  lemma WaitsFrame(slots: seq<Slot>, h: int, x: Slot, wait: seq<bool>)
    requires WaitsOk(slots, wait) && 0 <= h < |slots| && (slots[h].Ready? <==> x.Ready?)
    ensures WaitsOk(slots[h := x], wait)
  {
  }

  lemma ClaimsFrame(slots: seq<Slot>, h: int, x: Slot, clients: map<nat, ClientPc>)
    requires ClaimsOk(slots, clients) && 0 <= h < |slots| && !x.Claimed?
    ensures ClaimsOk(slots[h := x], clients)
  {
    hide PcOf, Claiming;
  }

  lemma HandlesFrame(slots: seq<Slot>, h: int, x: Slot, handles: map<Cmd, int>)
    requires HandlesOk(handles, slots) && 0 <= h < |slots|
    requires (slots[h].Flying? || slots[h].Ready?) && slots[h].who == Shelf ==> x == Ready(slots[h].cmd, Shelf)
    ensures HandlesOk(handles, slots[h := x])
  {
  }

  lemma DataFrame(slots: seq<Slot>, h: int, x: Slot, responses: seq<Resp>, answers: map<Cmd, int>)
    requires DataOk(slots, responses, answers) && 0 <= h < |slots|
    requires x.Ready? || x.Claimed? ==> (slots[h].Ready? || slots[h].Claimed?) && slots[h].cmd == x.cmd
    ensures DataOk(slots[h := x], responses, answers)
  {
  }

  lemma ServingFrame(slots: seq<Slot>, h: int, x: Slot, server: ServerPc, cmd: Cmd, waitId: int)
    requires ServingOk(server, cmd, waitId, slots) && 0 <= h < |slots| && !slots[h].Alloc? && !x.Alloc?
    requires server.Queued? && (slots[h].Flying? || slots[h].Ready?) && slots[h].who == Sender ==>
        x == Ready(slots[h].cmd, Sender)
    ensures ServingOk(server, cmd, waitId, slots[h := x])
  {
  }

  lemma TurnFrame(slots: seq<Slot>, h: int, x: Slot, clients: map<nat, ClientPc>, sendLock: bool, sender: Option<nat>,
                  serverMut: bool,
                  recvLock: bool, server: ServerPc, cmd: Cmd, waitId: int)
    requires TurnOk(clients, sendLock, sender, serverMut, recvLock, server, cmd, waitId, slots) && 0 <= h < |slots|
    requires (slots[h].Flying? || slots[h].Ready?) && slots[h].who == Sender ==> x == Ready(slots[h].cmd, Sender)
    ensures TurnOk(clients, sendLock, sender, serverMut, recvLock, server, cmd, waitId, slots[h := x])
  {
    hide PcOf;
  }

  // ---------------------------------------------------------------- send

  lemma SendKeeps(targets: iset<Target>, s: State, c: nat, target: Target, xd: bool)
    requires Inv(targets, s) && target in targets && SendStep(s, c, target, xd).Ok?
    ensures Inv(targets, SendStep(s, c, target, xd).s)
  {
    hide AimedOk, HandlesOk, ServingOk, StackOk, WaitsOk, FlyingOk, RoutingOk, LinesOk, RegisterOk, DataOk, ResultsOk;
    var s' := SendStep(s, c, target, xd).s;
    ClientAt(s, c);
    ClientsStep(s, s', c);
    assert ClaimsOk(s'.slots, s'.clients);
    assert TurnOk(s'.clients, s'.sendLock, s'.sender, s'.serverMut, s'.recvLock, s'.server, s'.cmd, s'.waitId,
                  s'.slots);
    assert Midway(s'.server, s'.holder, s'.clients) == Midway(s.server, s.holder, s.clients);
    assert DeliveriesOk(targets, s'.delivered, s'.sent, s'.sender, s'.clients,
                        Underway(s'.sender, s'.clients, s'.server, s'.serverMut));
  }

  lemma ServerRests(server: ServerPc, cmd: Cmd, cmd': Cmd, waitId: int, slots: seq<Slot>)
    requires ServingOk(server, cmd, waitId, slots) && Resting(server)
    ensures ServingOk(server, cmd', waitId, slots)
  {
  }

  lemma WriteKeeps(targets: iset<Target>, s: State, c: nat, s': State)
    requires Inv(targets, s) && PcOf(s.clients, c).Locked? && SendingStep(s, c) == Ok(s')
    ensures Inv(targets, s')
  {
    hide AimedOk, HandlesOk, StackOk, WaitsOk, FlyingOk, RoutingOk, LinesOk, RegisterOk, DataOk, ResultsOk, ServingOk;
    ClientAt(s, c);
    ClientsStep(s, s', c);
    ServerRests(s.server, s.cmd, s'.cmd, s.waitId, s.slots);
  }

  lemma SignalKeeps(targets: iset<Target>, s: State, c: nat)
    requires Inv(targets, s) && PcOf(s.clients, c).Written?
    ensures SendingStep(s, c).Ok? && Inv(targets, SendingStep(s, c).s)
  {
    hide AimedOk, HandlesOk, StackOk, WaitsOk, FlyingOk, RoutingOk, LinesOk, RegisterOk, DataOk, ResultsOk, ServingOk;
    ClientAt(s, c);
    ClientsStep(s, SendingStep(s, c).s, c);
  }

  lemma TakeKeeps(targets: iset<Target>, s: State, c: nat, s': State)
    requires Inv(targets, s) && PcOf(s.clients, c).Signalled? && SendingStep(s, c) == Ok(s')
    ensures Inv(targets, s')
  {
    hide AimedOk, HandlesOk, StackOk, WaitsOk, FlyingOk, RoutingOk, LinesOk, RegisterOk, DataOk, ResultsOk, ServingOk;
    ClientAt(s, c);
    ClientsStep(s, s', c);
  }

  lemma ReadHandleKeeps(targets: iset<Target>, s: State, c: nat)
    requires Inv(targets, s) && PcOf(s.clients, c).Taken?
    ensures SendingStep(s, c).Ok? && Inv(targets, SendingStep(s, c).s)
  {
    hide AimedOk, HandlesOk, StackOk, WaitsOk, FlyingOk, RoutingOk, LinesOk, RegisterOk, DataOk, ResultsOk, ServingOk;
    ClientAt(s, c);
    ClientsStep(s, SendingStep(s, c).s, c);
  }

  /** A slot whose handle may move: the server is not about to announce it. */
  predicate Movable(slots: seq<Slot>, h: int, server: ServerPc) {
    0 <= h < |slots| && (slots[h].Flying? || slots[h].Ready?) && (!server.Queued? || slots[h].who != Sender)
  }

  /** A slot's handle moves: no clause but those about handles and clients sees it. */
  lemma HandFrames(targets: iset<Target>, s: State, h: int, who: Who)
    requires Inv(targets, s) && Movable(s.slots, h, s.server)
    ensures var slots := Hand(s.slots, h, who);
      && StackOk(slots, s.freeList, s.depth) && FlyingOk(slots, s.inFlight, s.register) && WaitsOk(slots, s.wait)
      && AimedOk(targets, slots)
      && RoutingOk(targets, s.hardware, s.register, Arriving(s.server, s.cmd), slots, s.inFlight)
      && ClaimsOk(slots, s.clients) && DataOk(slots, s.responses, s.answers)
      && ServingOk(s.server, s.cmd, s.waitId, slots)
  {
    var x := Held(s.slots[h], who);
    hide AimedOk, StackOk, FlyingOk, RoutingOk, WaitsOk, ClaimsOk, DataOk, ServingOk, TurnOk, ClientsOk, HandlesOk,
         LinesOk, RegisterOk, ResultsOk, DeliveriesOk;
    AimedFrame(targets, s.slots, h, x);
    StackFrame(s.slots, h, x, s.freeList, s.depth);
    FlyingFrame(s.slots, h, x, s.inFlight, s.register);
    RoutingFrame(targets, s.hardware, s.register, Arriving(s.server, s.cmd), s.slots, h, x, s.inFlight);
    WaitsFrame(s.slots, h, x, s.wait);
    ClaimsFrame(s.slots, h, x, s.clients);
    DataFrame(s.slots, h, x, s.responses, s.answers);
    ServingFrame(s.slots, h, x, s.server, s.cmd, s.waitId);
  }

  lemma ShelfPut(handles: map<Cmd, int>, slots: seq<Slot>, cmd: Cmd, h: int)
    requires HandlesOk(handles, slots) && 0 <= h < |slots| && (slots[h].Flying? || slots[h].Ready?)
    requires slots[h].cmd == cmd && slots[h].who != Shelf
    ensures HandlesOk(handles[cmd := h], Hand(slots, h, Shelf))
  {
  }

  lemma ShelfTake(handles: map<Cmd, int>, slots: seq<Slot>, cmd: Cmd, who: Who)
    requires HandlesOk(handles, slots) && cmd in handles
    ensures Carries(slots, handles[cmd], cmd, Shelf) && HandlesOk(handles - {cmd}, Hand(slots, handles[cmd], who))
  {
  }

  lemma SentKeeps(targets: iset<Target>, s: State, c: nat, s': State)
    requires Inv(targets, s) && PcOf(s.clients, c).Got? && SendingStep(s, c) == Ok(s') && PcOf(s.clients, c).cmd.xd
    ensures Inv(targets, s')
  {
    hide AimedOk, StackOk, WaitsOk, FlyingOk, RoutingOk, LinesOk, RegisterOk, DataOk, ResultsOk, ServingOk, HandlesOk;
    ClientAt(s, c);
    var pc := PcOf(s.clients, c);
    HandFrames(targets, s, pc.h, Shelf);
    ShelfPut(s.handles, s.slots, pc.cmd, pc.h);
    ClientsStep(s, s', c);
  }

  lemma SentPlainKeeps(targets: iset<Target>, s: State, c: nat, s': State)
    requires Inv(targets, s) && PcOf(s.clients, c).Got? && SendingStep(s, c) == Ok(s') && !PcOf(s.clients, c).cmd.xd
    ensures Inv(targets, s')
  {
    hide AimedOk, StackOk, WaitsOk, FlyingOk, RoutingOk, LinesOk, RegisterOk, DataOk, ResultsOk, ServingOk, HandlesOk;
    ClientAt(s, c);
    ClientsStep(s, s', c);
  }

  // ---------------------------------------------------------------- get and try_get

  lemma GetKeeps(targets: iset<Target>, s: State, c: nat, cmd: Cmd, s': State)
    requires Inv(targets, s) && GetStep(s, c, cmd) == Ok(s')
    ensures Inv(targets, s')
  {
    hide AimedOk, StackOk, WaitsOk, FlyingOk, RoutingOk, LinesOk, RegisterOk, DataOk, ResultsOk, ServingOk, HandlesOk,
         TurnOk;
    ClientAt(s, c);
    ShelfTake(s.handles, s.slots, cmd, Claimer(c));
    var h := s.handles[cmd];
    HandFrames(targets, s, h, Claimer(c));
    IdleMoves(s, s', c, h, Held(s.slots[h], Claimer(c)));
    GetClients(s, c, cmd, s');
  }

  lemma GetClients(s: State, c: nat, cmd: Cmd, s': State)
    requires ClientsOk(s.clients, s.slots, s.answers, s.sender, s.holder) && HandlesOk(s.handles, s.slots)
    requires GetStep(s, c, cmd) == Ok(s')
    ensures ClientsOk(s'.clients, s'.slots, s'.answers, s'.sender, s'.holder)
  {
    hide HandlesOk;
    ClientAt(s, c);
    ShelfTake(s.handles, s.slots, cmd, Claimer(c));
    ClientsStep(s, s', c);
  }

  lemma GiveUpKeeps(targets: iset<Target>, s: State, c: nat, s': State)
    requires Inv(targets, s) && PcOf(s.clients, c).Waiting? && GiveUpStep(s, c) == Ok(s')
    ensures Inv(targets, s')
  {
    hide AimedOk, StackOk, WaitsOk, FlyingOk, RoutingOk, LinesOk, RegisterOk, DataOk, ResultsOk, ServingOk, HandlesOk,
         TurnOk;
    ClientAt(s, c);
    var pc := PcOf(s.clients, c);
    HandFrames(targets, s, pc.h, Shelf);
    ShelfPut(s.handles, s.slots, pc.cmd, pc.h);
    IdleMoves(s, s', c, pc.h, Held(s.slots[pc.h], Shelf));
    ClientsStep(s, s', c);
  }

  /** A client other than the sender moves and slot `h`, not the sender's, changes: the handshake and
      the deliveries do not notice. */
  lemma IdleMoves(s: State, s': State, c: nat, h: int, x: Slot)
    requires TurnOk(s.clients, s.sendLock, s.sender, s.serverMut, s.recvLock, s.server, s.cmd, s.waitId, s.slots)
    requires s.sender != Some(c) && 0 <= h < |s.slots|
    requires x == s.slots[h] || !Carries(s.slots, h, s.cmd, Sender)
    requires s'.clients == s.clients[c := PcOf(s'.clients, c)]
    ensures TurnOk(s'.clients, s.sendLock, s.sender, s.serverMut, s.recvLock, s.server, s.cmd, s.waitId,
                   s.slots[h := x])
    ensures Underway(s.sender, s'.clients, s.server, s.serverMut) ==
        Underway(s.sender, s.clients, s.server, s.serverMut)
    ensures s.sender.Some? ==> PcOf(s'.clients, s.sender.value) == PcOf(s.clients, s.sender.value)
  {
  }

  // ---------------------------------------------------------------- claiming a response

  /** Slot `h` goes from one kind to another, neither in flight nor on the stack. */
  lemma ClaimFrames(targets: iset<Target>, s: State, h: int, x: Slot)
    requires Inv(targets, s) && InRange(h) && CmdOf(s.slots, h) == None && CmdOf([x], 0) == None && !x.Alloc?
    requires s.slots[h].Claimed? || (s.slots[h].Ready? && s.slots[h].who.Claimer?)
    ensures var slots := s.slots[h := x];
      && FlyingOk(slots, s.inFlight, s.register)
      && RoutingOk(targets, s.hardware, s.register, Arriving(s.server, s.cmd), slots, s.inFlight)
      && ServingOk(s.server, s.cmd, s.waitId, slots)
      && HandlesOk(s.handles, slots) && AimedOk(targets, slots)
  {
    hide AimedOk, StackOk, FlyingOk, RoutingOk, WaitsOk, ClaimsOk, DataOk, ServingOk, TurnOk, ClientsOk, HandlesOk,
         LinesOk, RegisterOk, ResultsOk, DeliveriesOk;
    AimedFrame(targets, s.slots, h, x);
    FlyingFrame(s.slots, h, x, s.inFlight, s.register);
    RoutingFrame(targets, s.hardware, s.register, Arriving(s.server, s.cmd), s.slots, h, x, s.inFlight);
    ServingFrame(s.slots, h, x, s.server, s.cmd, s.waitId);
    HandlesFrame(s.slots, h, x, s.handles);
  }

  lemma WaitsClaim(slots: seq<Slot>, wait: seq<bool>, h: int, x: Slot)
    requires WaitsOk(slots, wait) && 0 <= h < |slots| && !x.Ready?
    ensures WaitsOk(slots[h := x], wait[h := true])
  {
  }

  lemma OwnKeeps(targets: iset<Target>, s: State, c: nat, s': State)
    requires Inv(targets, s) && PcOf(s.clients, c).Waiting? && ClaimStep(s, c) == Ok(s')
    ensures Inv(targets, s')
  {
    hide AimedOk, StackOk, FlyingOk, RoutingOk, LinesOk, RegisterOk, DataOk, ResultsOk, ServingOk, HandlesOk, TurnOk;
    ClientAt(s, c);
    var pc := PcOf(s.clients, c);
    var x := Claimed(pc.cmd, c);
    ClaimFrames(targets, s, pc.h, x);
    WaitsClaim(s.slots, s.wait, pc.h, x);
    StackFrame(s.slots, pc.h, x, s.freeList, s.depth);
    DataFrame(s.slots, pc.h, x, s.responses, s.answers);
    IdleMoves(s, s', c, pc.h, x);
    ClientsStep(s, s', c);
  }

  lemma DataAt(slots: seq<Slot>, responses: seq<Resp>, answers: map<Cmd, int>, h: int)
    requires DataOk(slots, responses, answers) && 0 <= h < |slots| && slots[h].Claimed?
    ensures slots[h].cmd in answers && responses[h].data == answers[slots[h].cmd]
  {
  }

  /** A claimer moves on within its claim. */
  lemma ClaimerMoves(targets: iset<Target>, s: State, c: nat, s': State)
    requires Inv(targets, s) && Claiming(PcOf(s.clients, c))
    requires (PcOf(s.clients, c).Owned? || PcOf(s.clients, c).HasRead?)
    requires ClaimStep(s, c) == Ok(s')
    ensures Inv(targets, s')
  {
    hide AimedOk, StackOk, WaitsOk, FlyingOk, RoutingOk, LinesOk, RegisterOk, DataOk, ResultsOk, ServingOk, HandlesOk,
         TurnOk;
    ClientAt(s, c);
    var pc := PcOf(s.clients, c);
    DataAt(s.slots, s.responses, s.answers, pc.h);
    IdleMoves(s, s', c, pc.h, s.slots[pc.h]);
    ClientsStep(s, s', c);
    assert s.slots[pc.h := s.slots[pc.h]] == s.slots;
  }

  lemma RaiseKeeps(targets: iset<Target>, s: State, c: nat, s': State)
    requires Inv(targets, s) && PcOf(s.clients, c).Freeing? && ClaimStep(s, c) == Ok(s')
    ensures Inv(targets, s')
  {
    hide AimedOk, StackOk, WaitsOk, FlyingOk, RoutingOk, LinesOk, RegisterOk, DataOk, ResultsOk, ServingOk, HandlesOk,
         TurnOk;
    ClientAt(s, c);
    var pc := PcOf(s.clients, c);
    IdleMoves(s, s', c, pc.h, s.slots[pc.h]);
    ClientsStep(s, s', c);
    assert s.slots[pc.h := s.slots[pc.h]] == s.slots;
    StackRange(s.slots, s.freeList, s.depth);
  }

  lemma StackRange(slots: seq<Slot>, freeList: seq<int>, depth: int)
    requires StackOk(slots, freeList, depth)
    ensures 0 <= depth <= SLOTS
  {
  }

  /** A slot that is not free leaves room on the stack. */
  lemma StackRoom(slots: seq<Slot>, freeList: seq<int>, depth: int, h: int)
    requires StackOk(slots, freeList, depth) && |slots| == SLOTS && InRange(h) && !slots[h].Free?
    ensures depth < SLOTS
  {
    var used := set p | 0 <= p < depth :: freeList[p];
    assert h !in used;
    SetOfPrefix(slots, freeList, depth);
    assert used + {h} <= Upto(SLOTS);
    Subset(used + {h}, Upto(SLOTS));
  }

  lemma {:induction false} SetOfPrefix(slots: seq<Slot>, freeList: seq<int>, depth: int)
    requires 0 <= depth <= |freeList| && forall p :: 0 <= p < depth ==>
        0 <= freeList[p] < |slots| && slots[freeList[p]] == Free(p)
    ensures |set p | 0 <= p < depth :: freeList[p]| == depth
    decreases depth
  {
    if depth > 0 {
      SetOfPrefix(slots, freeList, depth - 1);
      var rest := set p | 0 <= p < depth - 1 :: freeList[p];
      assert (set p | 0 <= p < depth :: freeList[p]) == rest + {freeList[depth - 1]};
      assert freeList[depth - 1] !in rest;
    }
  }

  ghost function Upto(n: nat): (r: set<int>)
    ensures |r| == n && forall i :: i in r <==> 0 <= i < n
  {
    if n == 0 then {} else Upto(n - 1) + {n - 1}
  }

  lemma {:induction false} Subset<T>(a: set<T>, b: set<T>)
    requires a <= b
    ensures |a| <= |b|
  {
    assert b == a + (b - a);
  }

  lemma StackPush(slots: seq<Slot>, freeList: seq<int>, depth: int, h: int)
    requires StackOk(slots, freeList, depth) && 0 <= h < |slots| && !slots[h].Free? && depth < SLOTS
    ensures StackOk(slots[h := Free(depth)], freeList[depth := h], depth + 1)
  {
  }

  lemma IndexAt(freeIdx: int, depth: int)
    requires IndexOk(freeIdx, depth, true) && 0 <= depth < SLOTS
    ensures freeIdx == depth
  {
  }

  lemma PushKeeps(targets: iset<Target>, s: State, c: nat)
    requires Inv(targets, s) && PcOf(s.clients, c).Raised?
    ensures s.freeIdx == s.depth && InRange(s.depth) && ClaimStep(s, c).Ok? && Inv(targets, ClaimStep(s, c).s)
  {
    hide AimedOk, StackOk, WaitsOk, FlyingOk, RoutingOk, LinesOk, RegisterOk, DataOk, ResultsOk, ServingOk, HandlesOk,
         TurnOk;
    ClientAt(s, c);
    var pc := PcOf(s.clients, c);
    StackRange(s.slots, s.freeList, s.depth);
    StackRoom(s.slots, s.freeList, s.depth, pc.h);
    IndexAt(s.freeIdx, s.depth);
    PushInv(targets, s, c, ClaimStep(s, c).s);
  }

  lemma PushInv(targets: iset<Target>, s: State, c: nat, s': State)
    requires Inv(targets, s) && PcOf(s.clients, c).Raised? && s.freeIdx == s.depth && InRange(s.depth)
    requires ClaimStep(s, c) == Ok(s')
    ensures Inv(targets, s')
  {
    hide AimedOk, StackOk, WaitsOk, FlyingOk, RoutingOk, LinesOk, RegisterOk, DataOk, ResultsOk, ServingOk, HandlesOk,
         TurnOk;
    ClientAt(s, c);
    var pc := PcOf(s.clients, c);
    var x := Free(s.depth);
    ClaimFrames(targets, s, pc.h, x);
    StackPush(s.slots, s.freeList, s.depth, pc.h);
    WaitsFrame(s.slots, pc.h, x, s.wait);
    DataFrame(s.slots, pc.h, x, s.responses, s.answers);
    IdleMoves(s, s', c, pc.h, x);
    ClientsStep(s, s', c);
  }

  lemma FreedKeeps(targets: iset<Target>, s: State, c: nat)
    requires Inv(targets, s) && PcOf(s.clients, c).Pushed?
    ensures ClaimStep(s, c).Ok? && Inv(targets, ClaimStep(s, c).s)
  {
    hide AimedOk, StackOk, WaitsOk, FlyingOk, RoutingOk, LinesOk, RegisterOk, DataOk, ServingOk, HandlesOk, TurnOk;
    ClientAt(s, c);
    IdleMoves(s, ClaimStep(s, c).s, c, 0, s.slots[0]);
    assert s.slots[0 := s.slots[0]] == s.slots;
    ClientsStep(s, ClaimStep(s, c).s, c);
  }

  // ---------------------------------------------------------------- server

  /** The server works only for the client that holds the send lock and waits for it. */
  lemma Busy(targets: iset<Target>, s: State)
    requires Inv(targets, s) && !Resting(s.server)
    ensures s.sender.Some? && PcOf(s.clients, s.sender.value) == Signalled(s.cmd) && s.serverMut && s.recvLock
    ensures s.sent != [] && s.cmd == s.sent[|s.sent| - 1] && s.cmd.target in targets
    ensures s.delivered == if s.server.Delivered? || s.server.Queued? then s.sent else s.sent[..|s.sent| - 1]
  {
    hide AimedOk, StackOk, WaitsOk, FlyingOk, RoutingOk, LinesOk, RegisterOk, DataOk, ServingOk, HandlesOk, ClientsOk,
         ClaimsOk;
  }

  /** No client moves; the free lock changes hands between nobody and the server; responses may arrive. */
  lemma ClientsWait(clients: map<nat, ClientPc>, sender: Option<nat>, holder: Holder, holder': Holder, slots: seq<Slot>,
                    slots': seq<Slot>,
                    answers: map<Cmd, int>, answers': map<Cmd, int>)
    requires ClientsOk(clients, slots, answers, sender, holder) && |slots| == |slots'|
    requires holder' == holder || (holder in {Nobody, ServerHolds} && holder' in {Nobody, ServerHolds})
    requires forall i :: 0 <= i < |slots| && Owner(slots[i]).Some? ==>
               slots'[i] == slots[i] || (slots[i].Flying? && slots'[i] == Ready(slots[i].cmd, slots[i].who))
    requires forall cmd :: cmd in answers ==> cmd in answers' && answers'[cmd] == answers[cmd]
    ensures ClientsOk(clients, slots', answers', sender, holder')
  {
    forall c: nat ensures ClientOk(c, PcOf(clients, c), slots', answers', sender, holder') {
      assert ClientOk(c, PcOf(clients, c), slots, answers, sender, holder);
    }
  }

  lemma WakeKeeps(targets: iset<Target>, s: State, s': State)
    requires Inv(targets, s) && s.server.Asleep? && AllocateStep(s) == Ok(s')
    ensures Inv(targets, s')
  {
    hide AimedOk, StackOk, WaitsOk, FlyingOk, RoutingOk, LinesOk, RegisterOk, DataOk, ResultsOk, HandlesOk, ClientsOk,
         ClaimsOk;
  }

  lemma PlainKeeps(targets: iset<Target>, s: State, s': State)
    requires Inv(targets, s) && s.server.Awake? && !s.cmd.xd && AllocateStep(s) == Ok(s')
    ensures Inv(targets, s')
  {
    hide AimedOk, StackOk, WaitsOk, FlyingOk, RoutingOk, LinesOk, RegisterOk, DataOk, ResultsOk, HandlesOk, ClientsOk,
         ClaimsOk;
    Busy(targets, s);
  }

  lemma ReserveKeeps(targets: iset<Target>, s: State, s': State)
    requires Inv(targets, s) && s.server.Awake? && s.cmd.xd && AllocateStep(s) == Ok(s')
    ensures Inv(targets, s')
  {
    hide AimedOk, StackOk, WaitsOk, FlyingOk, RoutingOk, LinesOk, RegisterOk, DataOk, ResultsOk, HandlesOk, ClientsOk,
         ClaimsOk;
    Busy(targets, s);
    ClientsWait(s.clients, s.sender, s.holder, s'.holder, s.slots, s.slots, s.answers, s.answers);
  }

  lemma StackPop(slots: seq<Slot>, freeList: seq<int>, depth: int, x: Slot)
    requires StackOk(slots, freeList, depth) && 0 < depth && !x.Free?
    ensures var h := freeList[depth - 1];
      0 <= h < |slots| && slots[h] == Free(depth - 1) && StackOk(slots[h := x], freeList, depth - 1)
  {
  }

  /** The allocation of a slot goes outside the free list exactly when every slot is taken. */
  lemma AllocationFault(targets: iset<Target>, s: State)
    requires Inv(targets, s) && s.server.Choosing?
    ensures AllocateStep(s).Fault? <==> forall i :: InRange(i) ==> !s.slots[i].Free?
    ensures !AllocateStep(s).Fault? ==> s.depth == s.freeIdx + 1
  {
    hide WaitsOk, FlyingOk, RoutingOk, LinesOk, RegisterOk, DataOk, ResultsOk, HandlesOk, ClientsOk, ClaimsOk, TurnOk,
         ServingOk;
    if s.depth > 0 { assert s.slots[s.freeList[s.depth - 1]].Free?; }
  }

  lemma ChooseFrames(targets: iset<Target>, s: State, h: int)
    requires Inv(targets, s) && InRange(h) && s.slots[h].Free? && s.server.Choosing?
    ensures var slots := s.slots[h := Alloc(s.cmd)];
      && FlyingOk(slots, s.inFlight, s.register) && RoutingOk(targets, s.hardware, s.register, None, slots, s.inFlight)
      && AimedOk(targets, slots) && WaitsOk(slots, s.wait) && ClaimsOk(slots, s.clients) && HandlesOk(s.handles, slots)
      && DataOk(slots, s.responses, s.answers)
  {
    hide AimedOk, StackOk, WaitsOk, FlyingOk, RoutingOk, LinesOk, RegisterOk, DataOk, ResultsOk, HandlesOk, ClientsOk,
         ClaimsOk, TurnOk, ServingOk, DeliveriesOk;
    var x := Alloc(s.cmd);
    AimedFrame(targets, s.slots, h, x);
    FlyingFrame(s.slots, h, x, s.inFlight, s.register);
    RoutingFrame(targets, s.hardware, s.register, None, s.slots, h, x, s.inFlight);
    WaitsFrame(s.slots, h, x, s.wait);
    ClaimsFrame(s.slots, h, x, s.clients);
    HandlesFrame(s.slots, h, x, s.handles);
    DataFrame(s.slots, h, x, s.responses, s.answers);
  }

  lemma ChooseKeeps(targets: iset<Target>, s: State, s': State)
    requires Inv(targets, s) && s.server.Choosing? && AllocateStep(s) == Ok(s')
    ensures Inv(targets, s')
  {
    hide AimedOk, StackOk, WaitsOk, FlyingOk, RoutingOk, LinesOk, RegisterOk, DataOk, ResultsOk, HandlesOk, ClientsOk,
         ClaimsOk, TurnOk;
    AllocationFault(targets, s);
    Busy(targets, s);
    StackPop(s.slots, s.freeList, s.depth, Alloc(s.cmd));
    ChooseFrames(targets, s, s.freeList[s.freeIdx]);
    TurnBusy(s, s');
    ClientsWait(s.clients, s.sender, s.holder, s.holder, s.slots, s'.slots, s.answers, s.answers);
  }

  /** While the server works, the handshake stands still. */
  lemma TurnBusy(s: State, s': State)
    requires TurnOk(s.clients, s.sendLock, s.sender, s.serverMut, s.recvLock, s.server, s.cmd, s.waitId, s.slots)
    requires !Resting(s.server) && !Resting(s'.server)
    ensures TurnOk(s.clients, s.sendLock, s.sender, s.serverMut, s.recvLock, s'.server, s.cmd, s'.waitId, s'.slots)
  {
  }

  lemma LowerKeeps(targets: iset<Target>, s: State, s': State)
    requires Inv(targets, s) && (s.server.Chosen? || s.server.Lowered? || s.server.Allocated?)
    requires AllocateStep(s) == Ok(s')
    ensures Inv(targets, s')
  {
    hide AimedOk, StackOk, WaitsOk, FlyingOk, RoutingOk, LinesOk, RegisterOk, DataOk, ResultsOk, HandlesOk, ClientsOk,
         ClaimsOk, TurnOk;
    Busy(targets, s);
    TurnBusy(s, s');
    StackRange(s.slots, s.freeList, s.depth);
    ClientsWait(s.clients, s.sender, s.holder, s'.holder, s.slots, s.slots, s.answers, s.answers);
  }

  // ---------------------------------------------------------------- delivery

  lemma EnterKeeps(targets: iset<Target>, s: State, s': State)
    requires Inv(targets, s) && s.server.Announced? && DeliverStep(s) == Ok(s')
    ensures Inv(targets, s')
  {
    hide AimedOk, StackOk, WaitsOk, FlyingOk, RoutingOk, LinesOk, RegisterOk, DataOk, ResultsOk, HandlesOk, ClientsOk,
         ClaimsOk, TurnOk;
    Busy(targets, s);
    TurnBusy(s, s');
  }

  lemma Appended(hardware: map<Target, seq<Cmd>>, register: RegisterPc, cmd: Cmd, t: Target)
    ensures Line(hardware[cmd.target := Owed(hardware, cmd.target) + [cmd]], register, t)
         == Line(hardware, register, t) + if t == cmd.target then [cmd] else []
  {
  }

  lemma LinesDeliver(targets: iset<Target>, hardware: map<Target, seq<Cmd>>, register: RegisterPc, cmd: Cmd,
                     answers: map<Cmd, int>)
    requires LinesOk(targets, hardware, register, cmd.n, answers) && cmd.target in targets
    requires register.Heard? || register.Holding? || register.Front? || register.Stored? ==> register.cmd in answers
    ensures LinesOk(targets, hardware[cmd.target := Owed(hardware, cmd.target) + [cmd]], register, cmd.n + 1, answers)
  {
    var hw := hardware[cmd.target := Owed(hardware, cmd.target) + [cmd]];
    forall t ensures Increasing(Line(hw, register, t)) {
      Appended(hardware, register, cmd, t);
      assert Increasing(Line(hardware, register, t));
      LineBelow(targets, hardware, register, cmd.n, answers, t);
    }
    assert cmd !in answers;
    forall t ensures OwedOk(targets, Owed(hw, t), t, cmd.n + 1, answers) {
      assert OwedOk(targets, Owed(hardware, t), t, cmd.n, answers);
    }
  }

  lemma LineBelow(targets: iset<Target>, hardware: map<Target, seq<Cmd>>, register: RegisterPc, count: nat,
                  answers: map<Cmd, int>, t: Target)
    requires LinesOk(targets, hardware, register, count, answers)
    requires register.Heard? || register.Holding? || register.Front? || register.Stored? ==> register.cmd in answers
    ensures forall p :: 0 <= p < |Line(hardware, register, t)| ==> Line(hardware, register, t)[p].n < count
  {
    var q := Owed(hardware, t);
    assert OwedOk(targets, q, t, count, answers);
    forall p | 0 <= p < |Line(hardware, register, t)| ensures Line(hardware, register, t)[p].n < count {
      assert Line(hardware, register, t)[p] in q || Line(hardware, register, t)[p] in answers;
    }
  }

  lemma LinesLater(targets: iset<Target>, hardware: map<Target, seq<Cmd>>, register: RegisterPc, n: nat,
                   answers: map<Cmd, int>)
    requires LinesOk(targets, hardware, register, n, answers)
    ensures LinesOk(targets, hardware, register, n + 1, answers)
  {
    forall t ensures OwedOk(targets, Owed(hardware, t), t, n + 1, answers) {
      assert OwedOk(targets, Owed(hardware, t), t, n, answers);
    }
  }

  lemma SomesSnoc(q: seq<Cmd>, cmd: Cmd)
    ensures Somes(q + [cmd]) == Somes(q) + [Some(cmd)]
  {
    assert |Somes(q + [cmd])| == |q| + 1;
    forall i | 0 <= i < |q| + 1 ensures Somes(q + [cmd])[i] == (Somes(q) + [Some(cmd)])[i] {
    }
  }

  lemma RoutingDeliver(targets: iset<Target>, hardware: map<Target, seq<Cmd>>, register: RegisterPc, cmd: Cmd,
                       slots: seq<Slot>, inFlight: map<Key, seq<int>>)
    requires RoutingOk(targets, hardware, register, None, slots, inFlight)
    ensures RoutingOk(targets, hardware[cmd.target := Owed(hardware, cmd.target) + [cmd]], register, Some(cmd), slots,
                      inFlight)
  {
    hide Somes, CmdsOf, Live;
    var hw := hardware[cmd.target := Owed(hardware, cmd.target) + [cmd]];
    forall t | t in targets ensures RoutedAt(hw, register, Some(cmd), slots, inFlight, t) {
      assert RoutedAt(hardware, register, None, slots, inFlight, t);
      Appended(hardware, register, cmd, t);
      SomesSnoc(Line(hardware, register, t), cmd);
      assert Line(hardware, register, t) + [] == Line(hardware, register, t);
    }
  }

  lemma DeliverKeeps(targets: iset<Target>, s: State, s': State)
    requires Inv(targets, s) && s.server.Delivering? && DeliverStep(s) == Ok(s') && s.cmd.xd
    ensures Inv(targets, s')
  {
    hide AimedOk, StackOk, WaitsOk, FlyingOk, RoutingOk, LinesOk, RegisterOk, DataOk, ResultsOk, HandlesOk, ClientsOk,
         ClaimsOk, TurnOk;
    Busy(targets, s);
    TurnBusy(s, s');
    Numbered(targets, s);
    RegisterHas(targets, s);
    LinesDeliver(targets, s.hardware, s.register, s.cmd, s.answers);
    RoutingDeliver(targets, s.hardware, s.register, s.cmd, s.slots, s.inFlight);
  }

  lemma DeliverPlainKeeps(targets: iset<Target>, s: State, s': State)
    requires Inv(targets, s) && s.server.Delivering? && DeliverStep(s) == Ok(s') && !s.cmd.xd
    ensures Inv(targets, s')
  {
    hide AimedOk, StackOk, WaitsOk, FlyingOk, RoutingOk, LinesOk, RegisterOk, DataOk, ResultsOk, HandlesOk, ClientsOk,
         ClaimsOk, TurnOk;
    Busy(targets, s);
    TurnBusy(s, s');
    LinesLater(targets, s.hardware, s.register, |s.delivered|, s.answers);
  }

  lemma Numbered(targets: iset<Target>, s: State)
    requires Inv(targets, s) && s.sent != []
    ensures s.sent[|s.sent| - 1].n == |s.sent| - 1
  {
    hide AimedOk, StackOk, WaitsOk, FlyingOk, RoutingOk, LinesOk, RegisterOk, DataOk, ResultsOk, HandlesOk, ClientsOk,
         ClaimsOk, TurnOk, ServingOk;
  }

  lemma RegisterHas(targets: iset<Target>, s: State)
    requires Inv(targets, s)
    ensures !s.register.Quiet? && !s.register.Popped? ==>
        s.register.cmd in s.answers && s.register.cmd.target in targets
  {
    hide AimedOk, StackOk, WaitsOk, FlyingOk, RoutingOk, LinesOk, DataOk, ResultsOk, HandlesOk, ClientsOk, ClaimsOk,
         TurnOk, ServingOk;
  }

  lemma DistinctKeys(targets: iset<Target>, a: Target, b: Target)
    requires Separable(targets) && a in targets && b in targets && CommandKey(a) == CommandKey(b)
    ensures a == b
  {
    assert CommandKey(b) == ResponseKey(b);
  }

  /** Slot `id` joins the queue of its command's key. */
  lemma FlyingPush(slots: seq<Slot>, inFlight: map<Key, seq<int>>, register: RegisterPc, id: int, cmd: Cmd)
    requires FlyingOk(slots, inFlight, register) && !register.Woken? && Mine(slots, id, cmd)
    ensures var k := CommandKey(cmd.target);
      FlyingOk(slots[id := Flying(cmd, Sender)], inFlight[k := QueueOf(inFlight, k) + [id]], register)
  {
    hide CommandKey;
    var k := CommandKey(cmd.target);
    var f' := inFlight[k := QueueOf(inFlight, k) + [id]];
    assert forall h :: Live(f', register, h) == if h == k then Live(inFlight, register, k) + [id]
      else Live(inFlight, register, h);
    var slots' := slots[id := Flying(cmd, Sender)];
    forall h, p | 0 <= p < |Live(f', register, h)|
      ensures var i := Live(f', register, h)[p];
        0 <= i < |slots'| && slots'[i].Flying? && CommandKey(slots'[i].cmd.target) == h {
      if p < |Live(inFlight, register, h)| { assert Live(f', register, h)[p] == Live(inFlight, register, h)[p]; }
    }
  }

  lemma CmdsPush(slots: seq<Slot>, inFlight: map<Key, seq<int>>, register: RegisterPc, id: int, cmd: Cmd, k: Key)
    requires FlyingOk(slots, inFlight, register) && Mine(slots, id, cmd)
    ensures var q := Live(inFlight, register, k); var slots' := slots[id := Flying(cmd, Sender)];
      CmdsOf(slots', q) == CmdsOf(slots, q) && CmdsOf(slots', q + [id]) == CmdsOf(slots, q) + [Some(cmd)]
  {
    hide CommandKey, Live;
    var q := Live(inFlight, register, k);
    assert forall p :: 0 <= p < |q| ==> q[p] != id by {
      forall p | 0 <= p < |q| ensures q[p] != id { assert slots[Live(inFlight, register, k)[p]].Flying?; }
    }
  }

  lemma RoutingPush(targets: iset<Target>, hardware: map<Target, seq<Cmd>>, register: RegisterPc, cmd: Cmd,
                    slots: seq<Slot>, inFlight: map<Key, seq<int>>, id: int)
    requires RoutingOk(targets, hardware, register, Some(cmd), slots, inFlight) && FlyingOk(slots, inFlight, register)
    requires Separable(targets) && cmd.target in targets && !register.Woken? && Mine(slots, id, cmd)
    ensures var k := CommandKey(cmd.target);
      RoutingOk(targets, hardware, register, None, slots[id := Flying(cmd, Sender)],
                inFlight[k := QueueOf(inFlight, k) + [id]])
  {
    var k := CommandKey(cmd.target);
    var f' := inFlight[k := QueueOf(inFlight, k) + [id]];
    var slots' := slots[id := Flying(cmd, Sender)];
    forall t | t in targets ensures RoutedAt(hardware, register, None, slots', f', t) {
      RoutingPushAt(targets, hardware, register, cmd, slots, inFlight, id, t);
    }
  }

  lemma RoutingPushAt(targets: iset<Target>, hardware: map<Target, seq<Cmd>>, register: RegisterPc, cmd: Cmd,
                      slots: seq<Slot>, inFlight: map<Key, seq<int>>, id: int, t: Target)
    requires RoutingOk(targets, hardware, register, Some(cmd), slots, inFlight) && FlyingOk(slots, inFlight, register)
    requires Separable(targets) && cmd.target in targets && !register.Woken? && Mine(slots, id, cmd) && t in targets
    ensures var k := CommandKey(cmd.target);
      RoutedAt(hardware, register, None, slots[id := Flying(cmd, Sender)], inFlight[k := QueueOf(inFlight, k) + [id]],
               t)
  {
    assert RoutedAt(hardware, register, Some(cmd), slots, inFlight, t);
    hide Somes, CmdsOf, Line, FlyingOk, CommandKey, Separable;
    if CommandKey(t) == CommandKey(cmd.target) { DistinctKeys(targets, t, cmd.target); }
    CmdsPush(slots, inFlight, register, id, cmd, CommandKey(t));
  }

  lemma QueueFrames(targets: iset<Target>, s: State, s': State)
    requires Inv(targets, s) && s.server.Delivered? && s.cmd.xd && DeliverStep(s) == Ok(s') && Separable(targets)
    ensures FlyingOk(s'.slots, s'.inFlight, s'.register)
    ensures RoutingOk(targets, s.hardware, s.register, None, s'.slots, s'.inFlight)
    ensures AimedOk(targets, s'.slots) && WaitsOk(s'.slots, s.wait) && ClaimsOk(s'.slots, s.clients)
    ensures HandlesOk(s.handles, s'.slots)
    ensures DataOk(s'.slots, s.responses, s.answers) && StackOk(s'.slots, s.freeList, s.depth)
  {
    hide AimedOk, StackOk, WaitsOk, FlyingOk, RoutingOk, LinesOk, RegisterOk, DataOk, ResultsOk, HandlesOk, ClientsOk,
         ClaimsOk, TurnOk, DeliveriesOk, Separable;
    Busy(targets, s);
    var id := s.server.id;
    var x := Flying(s.cmd, Sender);
    AimedFrame(targets, s.slots, id, x);
    FlyingPush(s.slots, s.inFlight, s.register, id, s.cmd);
    RoutingPush(targets, s.hardware, s.register, s.cmd, s.slots, s.inFlight, id);
    WaitsFrame(s.slots, id, x, s.wait);
    ClaimsFrame(s.slots, id, x, s.clients);
    HandlesFrame(s.slots, id, x, s.handles);
    DataFrame(s.slots, id, x, s.responses, s.answers);
    StackFrame(s.slots, id, x, s.freeList, s.depth);
  }

  lemma QueueKeeps(targets: iset<Target>, s: State, s': State)
    requires Inv(targets, s) && s.server.Delivered? && s.cmd.xd && DeliverStep(s) == Ok(s') && Separable(targets)
    ensures Inv(targets, s')
  {
    hide AimedOk, StackOk, WaitsOk, FlyingOk, RoutingOk, LinesOk, DataOk, ResultsOk, HandlesOk, ClientsOk, ClaimsOk,
         TurnOk, Separable;
    QueueFrames(targets, s, s');
    Busy(targets, s);
    TurnBusy(s, s');
    ClientsWait(s.clients, s.sender, s.holder, s.holder, s.slots, s'.slots, s.answers, s.answers);
  }

  lemma SkipQueueKeeps(targets: iset<Target>, s: State, s': State)
    requires Inv(targets, s) && s.server.Delivered? && !s.cmd.xd && DeliverStep(s) == Ok(s')
    ensures Inv(targets, s')
  {
    hide AimedOk, StackOk, WaitsOk, FlyingOk, RoutingOk, LinesOk, RegisterOk, DataOk, ResultsOk, HandlesOk, ClientsOk,
         ClaimsOk, TurnOk;
    Busy(targets, s);
    TurnBusy(s, s');
  }

  lemma ReplyKeeps(targets: iset<Target>, s: State)
    requires Inv(targets, s) && s.server.Queued?
    ensures DeliverStep(s).Ok? && Inv(targets, DeliverStep(s).s)
  {
    hide AimedOk, StackOk, WaitsOk, FlyingOk, RoutingOk, LinesOk, RegisterOk, DataOk, ResultsOk, HandlesOk, ClientsOk,
         ClaimsOk;
    Busy(targets, s);
  }

  lemma FinishKeeps(targets: iset<Target>, s: State)
    requires Inv(targets, s) && s.server.Finishing?
    ensures DeliverStep(s).Ok? && Inv(targets, DeliverStep(s).s)
  {
    hide AimedOk, StackOk, WaitsOk, FlyingOk, RoutingOk, LinesOk, RegisterOk, DataOk, ResultsOk, HandlesOk, ClientsOk,
         ClaimsOk;
  }

  // ---------------------------------------------------------------- answers

  lemma AnswerLine(hardware: map<Target, seq<Cmd>>, t: Target, resp: Resp, u: Target)
    requires var q := Owed(hardware, t); q != [] && q[0].target == t
    ensures var q := Owed(hardware, t); Line(hardware[t := q[1..]], Heard(q[0], resp), u) == Line(hardware, Quiet, u)
  {
  }

  lemma OwedRest(targets: iset<Target>, q: seq<Cmd>, t: Target, q': seq<Cmd>, u: Target, count: nat,
                 answers: map<Cmd, int>, data: int)
    requires q != [] && OwedOk(targets, q, t, count, answers) && OwedOk(targets, q', u, count, answers) && Increasing(q)
    ensures u != t ==> OwedOk(targets, q', u, count, answers[q[0] := data])
    ensures OwedOk(targets, q[1..], t, count, answers[q[0] := data])
  {
    assert q[0].target == t;
    forall p | 0 <= p < |q[1..]| ensures q[1..][p] == q[p + 1] && q[0].n < q[p + 1].n { }
    if u != t {
      forall p | 0 <= p < |q'| ensures q'[p] != q[0] && q'[p] !in answers[q[0] := data] { assert q'[p].target == u; }
    }
  }

  lemma LinesAnswer(targets: iset<Target>, hardware: map<Target, seq<Cmd>>, t: Target, count: nat,
                    answers: map<Cmd, int>, resp: Resp, data: int)
    requires LinesOk(targets, hardware, Quiet, count, answers) && Owed(hardware, t) != []
    ensures var q := Owed(hardware, t);
      && t in targets && q[0].target == t && q[0] !in answers
      && LinesOk(targets, hardware[t := q[1..]], Heard(q[0], resp), count, answers[q[0] := data])
  {
    var q := Owed(hardware, t);
    var hw := hardware[t := q[1..]];
    forall u ensures Increasing(Line(hw, Heard(q[0], resp), u)) {
      AnswerLine(hardware, t, resp, u);
    }
    assert Increasing(Line(hardware, Quiet, t)) && Line(hardware, Quiet, t) == q;
    assert OwedOk(targets, q, t, count, answers);
    forall u ensures OwedOk(targets, Owed(hw, u), u, count, answers[q[0] := data]) {
      assert OwedOk(targets, Owed(hardware, u), u, count, answers);
      OwedRest(targets, q, t, Owed(hardware, u), u, count, answers, data);
    }
    assert q[0] in q && t in targets && q[0].target == t && q[0] !in answers;
  }

  lemma RoutingAnswer(targets: iset<Target>, hardware: map<Target, seq<Cmd>>, t: Target, resp: Resp,
                      arriving: Option<Cmd>,
                      slots: seq<Slot>, inFlight: map<Key, seq<int>>)
    requires RoutingOk(targets, hardware, Quiet, arriving, slots, inFlight)
    requires var q := Owed(hardware, t); q != [] && q[0].target == t
    ensures var q := Owed(hardware, t);
      RoutingOk(targets, hardware[t := q[1..]], Heard(q[0], resp), arriving, slots, inFlight)
  {
    hide Somes, CmdsOf, CommandKey, Line;
    var q := Owed(hardware, t);
    forall u | u in targets ensures RoutedAt(hardware[t := q[1..]], Heard(q[0], resp), arriving, slots, inFlight, u) {
      assert RoutedAt(hardware, Quiet, arriving, slots, inFlight, u);
      AnswerLine(hardware, t, resp, u);
    }
  }

  lemma FlyingStays(slots: seq<Slot>, inFlight: map<Key, seq<int>>, r: RegisterPc, r': RegisterPc)
    requires FlyingOk(slots, inFlight, r) && !r.Woken? && !r'.Woken?
    ensures FlyingOk(slots, inFlight, r')
  {
    hide CommandKey;
    assert forall k :: Live(inFlight, r, k) == Live(inFlight, r', k);
    hide Live;
  }

  lemma DataLater(slots: seq<Slot>, responses: seq<Resp>, answers: map<Cmd, int>, cmd: Cmd, data: int)
    requires DataOk(slots, responses, answers) && cmd !in answers
    ensures DataOk(slots, responses, answers[cmd := data])
  {
  }

  lemma AnswerKeeps(targets: iset<Target>, s: State, t: Target, data: int, s': State)
    requires Inv(targets, s) && AnswerStep(s, t, data) == Ok(s')
    ensures Inv(targets, s')
  {
    hide AimedOk, StackOk, WaitsOk, FlyingOk, RoutingOk, LinesOk, DataOk, HandlesOk, ClientsOk, ClaimsOk, TurnOk,
         ServingOk, DeliveriesOk;
    var cmd := Owed(s.hardware, t)[0];
    var resp := Resp(ResponseKey(t), data);
    LinesAnswer(targets, s.hardware, t, |s.delivered|, s.answers, resp, data);
    RoutingAnswer(targets, s.hardware, t, resp, Arriving(s.server, s.cmd), s.slots, s.inFlight);
    FlyingStays(s.slots, s.inFlight, Quiet, s'.register);
    DataLater(s.slots, s.responses, s.answers, cmd, data);
    ClientsWait(s.clients, s.sender, s.holder, s.holder, s.slots, s.slots, s.answers, s'.answers);
  }

  // ---------------------------------------------------------------- registering a response

  predicate Ringing(r: RegisterPc) { r.Heard? || r.Holding? || r.Front? || r.Stored? }

  /** Moving on before the waiter is woken leaves lines and queues alone. */
  lemma RingingMoves(targets: iset<Target>, s: State, r: RegisterPc)
    requires Inv(targets, s) && Ringing(s.register) && Ringing(r) && r.cmd == s.register.cmd
    ensures LinesOk(targets, s.hardware, r, |s.delivered|, s.answers) && FlyingOk(s.slots, s.inFlight, r)
    ensures RoutingOk(targets, s.hardware, r, Arriving(s.server, s.cmd), s.slots, s.inFlight)
  {
    hide AimedOk, StackOk, WaitsOk, FlyingOk, DataOk, HandlesOk, ClientsOk, ClaimsOk, TurnOk, ServingOk, DeliveriesOk,
         RegisterOk;
    FlyingStays(s.slots, s.inFlight, s.register, r);
    SameLines(targets, s.hardware, s.register, r, |s.delivered|, s.answers);
    SameRouting(targets, s.hardware, s.register, r, Arriving(s.server, s.cmd), s.slots, s.inFlight, s.inFlight);
  }

  lemma SameLines(targets: iset<Target>, hardware: map<Target, seq<Cmd>>, r: RegisterPc, r': RegisterPc, count: nat,
                  answers: map<Cmd, int>)
    requires LinesOk(targets, hardware, r, count, answers) && forall t :: Line(hardware, r, t) == Line(hardware, r', t)
    ensures LinesOk(targets, hardware, r', count, answers)
  {
    hide Line;
    hide OwedOk, Increasing;
    forall t ensures Increasing(Line(hardware, r', t)) { assert Increasing(Line(hardware, r, t)); }
  }

  lemma SameRouting(targets: iset<Target>, hardware: map<Target, seq<Cmd>>, r: RegisterPc, r': RegisterPc,
                    arriving: Option<Cmd>,
                    slots: seq<Slot>, f: map<Key, seq<int>>, f': map<Key, seq<int>>)
    requires RoutingOk(targets, hardware, r, arriving, slots, f)
    requires forall t :: Line(hardware, r, t) == Line(hardware, r', t)
    requires forall k :: Live(f, r, k) == Live(f', r', k)
    ensures RoutingOk(targets, hardware, r', arriving, slots, f')
  {
    hide Line, Live, Somes, CmdsOf, CommandKey;
    forall t | t in targets ensures RoutedAt(hardware, r', arriving, slots, f', t) {
      assert RoutedAt(hardware, r, arriving, slots, f, t);
    }
  }

  lemma HoldKeeps(targets: iset<Target>, s: State, s': State)
    requires Inv(targets, s) && s.register.Heard? && RegisterStep(s) == Ok(s')
    ensures Inv(targets, s')
  {
    hide AimedOk, StackOk, WaitsOk, FlyingOk, RoutingOk, LinesOk, DataOk, HandlesOk, ClientsOk, ClaimsOk, TurnOk,
         ServingOk, DeliveriesOk, ResultsOk;
    RingingMoves(targets, s, s'.register);
  }

  /** While a response is being registered, its command's slot is in front of its key's queue. */
  lemma FrontOk(targets: iset<Target>, s: State)
    requires Inv(targets, s) && Separable(targets) && (s.register.Holding? || s.register.Front? || s.register.Stored?)
    ensures s.register.resp.key == CommandKey(s.register.cmd.target)
    ensures var q := QueueOf(s.inFlight, s.register.resp.key);
      && q != [] && InRange(q[0]) && s.slots[q[0]].Flying? && s.slots[q[0]].cmd == s.register.cmd
      && CmdsOf(s.slots, q) == Somes(Line(s.hardware, s.register, s.register.cmd.target))
  {
    hide AimedOk, StackOk, WaitsOk, LinesOk, DataOk, HandlesOk, ClientsOk, ClaimsOk, TurnOk, ServingOk, DeliveriesOk,
         ResultsOk, CommandKey, ResponseKey;
    var t := s.register.cmd.target;
    assert CommandKey(t) == ResponseKey(t);
    var q := Live(s.inFlight, s.register, CommandKey(t));
    assert Arriving(s.server, s.cmd) == None;
    assert RoutedAt(s.hardware, s.register, None, s.slots, s.inFlight, t);
    var line := Line(s.hardware, s.register, t);
    assert line != [] && line[0] == s.register.cmd && Somes(line)[0] == Some(line[0]);
    assert Somes(line) == CmdsOf(s.slots, q);
    assert CmdsOf(s.slots, q)[0] == Some(s.register.cmd);
  }

  lemma FrontKeeps(targets: iset<Target>, s: State)
    requires Inv(targets, s) && Separable(targets) && s.register.Holding?
    ensures RegisterStep(s).Ok? && Inv(targets, RegisterStep(s).s)
  {
    hide AimedOk, StackOk, WaitsOk, FlyingOk, RoutingOk, LinesOk, DataOk, HandlesOk, ClientsOk, ClaimsOk, TurnOk,
         ServingOk, DeliveriesOk, ResultsOk, Separable, CommandKey;
    FrontOk(targets, s);
    RingingMoves(targets, s, RegisterStep(s).s.register);
  }

  lemma DataStore(slots: seq<Slot>, responses: seq<Resp>, answers: map<Cmd, int>, id: int, r: Resp)
    requires DataOk(slots, responses, answers) && 0 <= id < |slots| && slots[id].Flying?
    ensures DataOk(slots, responses[id := r], answers)
  {
  }

  lemma StoreKeeps(targets: iset<Target>, s: State)
    requires Inv(targets, s) && Separable(targets) && s.register.Front?
    ensures RegisterStep(s).Ok? && Inv(targets, RegisterStep(s).s)
  {
    hide AimedOk, StackOk, WaitsOk, FlyingOk, RoutingOk, LinesOk, DataOk, HandlesOk, ClientsOk, ClaimsOk, TurnOk,
         ServingOk, DeliveriesOk, ResultsOk, Separable, CommandKey;
    FrontOk(targets, s);
    DataStore(s.slots, s.responses, s.answers, s.register.id, s.register.resp);
    RingingMoves(targets, s, RegisterStep(s).s.register);
  }

  /** Commands in increasing order, one slot each: no slot is queued twice. */
  lemma DistinctSlots(slots: seq<Slot>, q: seq<int>, line: seq<Cmd>)
    requires CmdsOf(slots, q) == Somes(line) && Increasing(line)
    ensures forall p :: 0 < p < |q| ==> q[p] != q[0]
  {
    assert |q| == |line| by { assert |CmdsOf(slots, q)| == |Somes(line)|; }
    forall p | 0 < p < |q| ensures q[p] != q[0] {
      assert CmdsOf(slots, q)[p] == Somes(line)[p] && CmdsOf(slots, q)[0] == Somes(line)[0];
      assert line[0].n < line[p].n;
    }
  }

  /** Waking the waiter takes the front slot out of flight. */
  lemma FlyingWake(slots: seq<Slot>, inFlight: map<Key, seq<int>>, r: RegisterPc, k: Key)
    requires FlyingOk(slots, inFlight, r) && r.Stored? && r.resp.key == k
    requires var q := QueueOf(inFlight, k); q != [] && q[0] == r.id && (forall p :: 0 < p < |q| ==> q[p] != q[0])
    requires 0 <= r.id < |slots| && slots[r.id].Flying? && CommandKey(slots[r.id].cmd.target) == k
    ensures FlyingOk(Ring(slots, r.id), inFlight, Woken(r.cmd, r.resp, r.id))
  {
    hide CommandKey;
    var slots', r' := Ring(slots, r.id), Woken(r.cmd, r.resp, r.id);
    forall h, p | 0 <= p < |Live(inFlight, r', h)|
      ensures var i := Live(inFlight, r', h)[p];
        0 <= i < |slots'| && slots'[i].Flying? && CommandKey(slots'[i].cmd.target) == h {
      if h == k {
        assert Live(inFlight, r', h)[p] == Live(inFlight, r, h)[p + 1];
      } else {
        assert Live(inFlight, r', h)[p] == Live(inFlight, r, h)[p];
      }
    }
    forall i | 0 <= i < |slots'| && slots'[i].Flying?
        ensures i in Live(inFlight, r', CommandKey(slots'[i].cmd.target)) {
      assert i in Live(inFlight, r, CommandKey(slots[i].cmd.target));
    }
  }

  lemma CmdsWake(slots: seq<Slot>, id: int, q: seq<int>)
    requires forall p :: 0 <= p < |q| ==> q[p] != id
    ensures CmdsOf(Ring(slots, id), q) == CmdsOf(slots, q)
  {
  }

  lemma TailOf(slots: seq<Slot>, q: seq<int>, line: seq<Cmd>)
    requires q != [] && Somes(line) == CmdsOf(slots, q)
    ensures line != [] && Somes(line[1..]) == CmdsOf(slots, q[1..])
  {
    assert |Somes(line)| == |line|;
    assert Somes(line[1..]) == Somes(line)[1..] && CmdsOf(slots, q[1..]) == CmdsOf(slots, q)[1..];
  }

  lemma RoutedWake(targets: iset<Target>, hardware: map<Target, seq<Cmd>>, r: RegisterPc, slots: seq<Slot>,
                   inFlight: map<Key, seq<int>>, t: Target)
    requires RoutedAt(hardware, r, None, slots, inFlight, t) && FlyingOk(slots, inFlight, r) && r.Stored?
    requires r.cmd.target in targets && t in targets && Separable(targets) && r.resp.key == CommandKey(r.cmd.target)
    requires var q := QueueOf(inFlight, r.resp.key);
      q != [] && q[0] == r.id && (forall p :: 0 < p < |q| ==> q[p] != q[0])
    requires 0 <= r.id < |slots| && slots[r.id].Flying? && slots[r.id].cmd == r.cmd
    ensures RoutedAt(hardware, Woken(r.cmd, r.resp, r.id), None, Ring(slots, r.id), inFlight, t)
  {
    hide CommandKey, Separable;
    var k := CommandKey(t);
    var r' := Woken(r.cmd, r.resp, r.id);
    var q := Live(inFlight, r, k);
    if t == r.cmd.target {
      CmdsWake(slots, r.id, q[1..]);
      TailOf(slots, q, Line(hardware, r, t));
      assert Line(hardware, r, t)[1..] == Line(hardware, r', t);
    } else {
      if k == CommandKey(r.cmd.target) { DistinctKeys(targets, t, r.cmd.target); }
      assert forall p :: 0 <= p < |q| ==> q[p] != r.id by {
        forall p | 0 <= p < |q| ensures q[p] != r.id {
          assert CommandKey(slots[Live(inFlight, r, k)[p]].cmd.target) == k;
        }
      }
      CmdsWake(slots, r.id, q);
      assert Line(hardware, r, t) == Line(hardware, r', t);
    }
  }

  lemma LinesWake(targets: iset<Target>, hardware: map<Target, seq<Cmd>>, r: RegisterPc, count: nat,
                  answers: map<Cmd, int>)
    requires LinesOk(targets, hardware, r, count, answers) && r.Stored?
    ensures LinesOk(targets, hardware, Woken(r.cmd, r.resp, r.id), count, answers)
  {
    hide OwedOk;
    forall t ensures Increasing(Line(hardware, Woken(r.cmd, r.resp, r.id), t)) {
      assert Increasing(Line(hardware, r, t));
      LineSuffix(hardware, r, t);
    }
  }

  lemma LineSuffix(hardware: map<Target, seq<Cmd>>, r: RegisterPc, t: Target)
    requires r.Stored? && Increasing(Line(hardware, r, t))
    ensures Increasing(Line(hardware, Woken(r.cmd, r.resp, r.id), t))
  {
    var a, b := Line(hardware, r, t), Line(hardware, Woken(r.cmd, r.resp, r.id), t);
    var d := |a| - |b|;
    forall i, j | 0 <= i < j < |b| ensures b[i].n < b[j].n {
      assert b[i] == a[i + d] && b[j] == a[j + d];
    }
  }

  lemma WakeQueues(targets: iset<Target>, s: State, s': State)
    requires Inv(targets, s) && Separable(targets) && s.register.Stored? && RegisterStep(s) == Ok(s')
    ensures FlyingOk(s'.slots, s.inFlight, s'.register)
    ensures RoutingOk(targets, s.hardware, s'.register, Arriving(s.server, s.cmd), s'.slots, s.inFlight)
    ensures LinesOk(targets, s.hardware, s'.register, |s.delivered|, s.answers)
  {
    hide AimedOk, StackOk, WaitsOk, FlyingOk, DataOk, HandlesOk, ClientsOk, ClaimsOk, TurnOk, ServingOk, DeliveriesOk,
         ResultsOk, Separable, CommandKey, RoutedAt;
    FrontOk(targets, s);
    var r := s.register;
    var line := Line(s.hardware, r, r.cmd.target);
    assert Increasing(line);
    DistinctSlots(s.slots, QueueOf(s.inFlight, r.resp.key), line);
    FlyingWake(s.slots, s.inFlight, r, r.resp.key);
    assert Arriving(s.server, s.cmd) == None;
    forall t | t in targets ensures RoutedAt(s.hardware, s'.register, None, s'.slots, s.inFlight, t) {
      RoutedWake(targets, s.hardware, r, s.slots, s.inFlight, t);
    }
    LinesWake(targets, s.hardware, r, |s.delivered|, s.answers);
  }

  lemma WaitsWake(slots: seq<Slot>, wait: seq<bool>, id: int)
    requires WaitsOk(slots, wait) && 0 <= id < |slots| && slots[id].Flying?
    ensures wait[id] && WaitsOk(Ring(slots, id), wait[id := false])
  {
  }

  lemma WakeSlots(targets: iset<Target>, s: State, s': State)
    requires Inv(targets, s) && Separable(targets) && s.register.Stored? && RegisterStep(s) == Ok(s')
    ensures AimedOk(targets, s'.slots) && StackOk(s'.slots, s.freeList, s.depth) && WaitsOk(s'.slots, s'.wait)
    ensures ClaimsOk(s'.slots, s.clients)
    ensures HandlesOk(s.handles, s'.slots) && DataOk(s'.slots, s.responses, s.answers)
    ensures ServingOk(s.server, s.cmd, s.waitId, s'.slots)
    ensures TurnOk(s.clients, s.sendLock, s.sender, s.serverMut, s.recvLock, s.server, s.cmd, s.waitId, s'.slots)
    ensures ClientsOk(s.clients, s'.slots, s.answers, s.sender, s.holder)
  {
    hide AimedOk, StackOk, WaitsOk, FlyingOk, DataOk, HandlesOk, ClientsOk, ClaimsOk, TurnOk, ServingOk, DeliveriesOk,
         ResultsOk, Separable, CommandKey, RoutingOk, LinesOk;
    FrontOk(targets, s);
    var h := s.register.id;
    var x := Ready(s.slots[h].cmd, s.slots[h].who);
    AimedFrame(targets, s.slots, h, x);
    StackFrame(s.slots, h, x, s.freeList, s.depth);
    WaitsWake(s.slots, s.wait, h);
    ClaimsFrame(s.slots, h, x, s.clients);
    HandlesFrame(s.slots, h, x, s.handles);
    DataWake(s.slots, s.responses, s.answers, h);
    ServingFrame(s.slots, h, x, s.server, s.cmd, s.waitId);
    TurnFrame(s.slots, h, x, s.clients, s.sendLock, s.sender, s.serverMut, s.recvLock, s.server, s.cmd, s.waitId);
    ClientsWait(s.clients, s.sender, s.holder, s.holder, s.slots, s'.slots, s.answers, s.answers);
  }

  lemma DataWake(slots: seq<Slot>, responses: seq<Resp>, answers: map<Cmd, int>, id: int)
    requires DataOk(slots, responses, answers) && 0 <= id < |slots| && slots[id].Flying?
    requires slots[id].cmd in answers && responses[id].data == answers[slots[id].cmd]
    ensures DataOk(Ring(slots, id), responses, answers)
  {
  }

  lemma RingKeeps(targets: iset<Target>, s: State)
    requires Inv(targets, s) && Separable(targets) && s.register.Stored?
    ensures RegisterStep(s).Ok? && Inv(targets, RegisterStep(s).s)
  {
    hide AimedOk, StackOk, WaitsOk, FlyingOk, DataOk, HandlesOk, ClientsOk, ClaimsOk, TurnOk, ServingOk, DeliveriesOk,
         ResultsOk, Separable, CommandKey, RoutingOk, LinesOk;
    FrontOk(targets, s);
    WaitsWake(s.slots, s.wait, s.register.id);
    WakeSlots(targets, s, RegisterStep(s).s);
    WakeQueues(targets, s, RegisterStep(s).s);
  }

  lemma LivePop(f: map<Key, seq<int>>, r: RegisterPc)
    requires r.Woken? && QueueOf(f, r.resp.key) != []
    ensures forall k :: Live(f, r, k) == Live(f[r.resp.key := QueueOf(f, r.resp.key)[1..]], Popped, k)
  {
  }

  lemma PopQueues(targets: iset<Target>, s: State, s': State)
    requires Inv(targets, s) && s.register.Woken? && RegisterStep(s) == Ok(s')
    ensures FlyingOk(s.slots, s'.inFlight, s'.register)
    ensures RoutingOk(targets, s.hardware, s'.register, Arriving(s.server, s.cmd), s.slots, s'.inFlight)
    ensures LinesOk(targets, s.hardware, s'.register, |s.delivered|, s.answers)
  {
    hide AimedOk, StackOk, WaitsOk, DataOk, HandlesOk, ClientsOk, ClaimsOk, TurnOk, ServingOk, DeliveriesOk, ResultsOk,
         RoutingOk, LinesOk, FlyingOk;
    LivePop(s.inFlight, s.register);
    SameLines(targets, s.hardware, s.register, s'.register, |s.delivered|, s.answers);
    FlyingPop(s.slots, s.inFlight, s.register, s'.inFlight, s'.register);
    SameRouting(targets, s.hardware, s.register, s'.register, Arriving(s.server, s.cmd), s.slots, s.inFlight,
                s'.inFlight);
  }

  lemma FlyingPop(slots: seq<Slot>, f: map<Key, seq<int>>, r: RegisterPc, f': map<Key, seq<int>>, r': RegisterPc)
    requires FlyingOk(slots, f, r) && forall k :: Live(f, r, k) == Live(f', r', k)
    ensures FlyingOk(slots, f', r')
  {
    hide Live, CommandKey;
  }

  lemma PopKeeps(targets: iset<Target>, s: State)
    requires Inv(targets, s) && s.register.Woken?
    ensures RegisterStep(s).Ok? && Inv(targets, RegisterStep(s).s)
  {
    hide AimedOk, StackOk, WaitsOk, FlyingOk, DataOk, HandlesOk, ClientsOk, ClaimsOk, TurnOk, ServingOk, DeliveriesOk,
         ResultsOk, CommandKey, RoutingOk, LinesOk;
    PopQueues(targets, s, RegisterStep(s).s);
  }

  lemma QuietKeeps(targets: iset<Target>, s: State)
    requires Inv(targets, s) && s.register.Popped?
    ensures RegisterStep(s).Ok? && Inv(targets, RegisterStep(s).s)
  {
    hide AimedOk, StackOk, WaitsOk, FlyingOk, DataOk, HandlesOk, ClientsOk, ClaimsOk, TurnOk, ServingOk, DeliveriesOk,
         ResultsOk, CommandKey, RoutingOk, LinesOk;
    var s' := RegisterStep(s).s;
    FlyingStays(s.slots, s.inFlight, Popped, Quiet);
    SameAtRest(targets, s.hardware, |s.delivered|, s.answers, Arriving(s.server, s.cmd), s.slots, s.inFlight);
  }

  lemma SameAtRest(targets: iset<Target>, hardware: map<Target, seq<Cmd>>, count: nat, answers: map<Cmd, int>,
                   arriving: Option<Cmd>,
                   slots: seq<Slot>, inFlight: map<Key, seq<int>>)
    requires LinesOk(targets, hardware, Popped, count, answers)
    requires RoutingOk(targets, hardware, Popped, arriving, slots, inFlight)
    ensures LinesOk(targets, hardware, Quiet, count, answers)
    ensures RoutingOk(targets, hardware, Quiet, arriving, slots, inFlight)
  {
    hide OwedOk, Increasing, Somes, CmdsOf, CommandKey, LinesOk, RoutingOk;
    SameLines(targets, hardware, Popped, Quiet, count, answers);
    SameRouting(targets, hardware, Popped, Quiet, arriving, slots, inFlight, inFlight);
  }
}
