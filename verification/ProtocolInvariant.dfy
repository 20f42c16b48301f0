/** The invariant of the command protocol. Each clause names only the parts of the state it speaks
    of, so that a step that leaves those parts alone keeps the clause. */
module ProtocolInvariant {
  import opened CommandProtocol
  import opened Options

  /** The targets in use keep apart under the keys: a response finds the queue of its own core. */
  ghost predicate Separable(targets: iset<Target>) {
    forall a, b :: a in targets && b in targets ==> (CommandKey(a) == ResponseKey(b) <==> a == b)
  }

  // ---------------------------------------------------------------- clients and handles

  predicate HoldsFree(pc: ClientPc) { pc.Freeing? || pc.Raised? || pc.Pushed? }

  predicate Claiming(pc: ClientPc) { pc.Owned? || pc.HasRead? || pc.Freeing? || pc.Raised? }

  /** Slot `h` is in flight or answered for `cmd`, and `who` has the handle. */
  predicate Carries(slots: seq<Slot>, h: int, cmd: Cmd, who: Who) {
    0 <= h < |slots| && (slots[h] == Flying(cmd, who) || slots[h] == Ready(cmd, who))
  }

  predicate ClientOk(c: nat, pc: ClientPc, slots: seq<Slot>, answers: map<Cmd, int>, sender: Option<nat>,
                     holder: Holder) {
    && (Sending(pc) <==> sender == Some(c))
    && (HoldsFree(pc) <==> holder == ClientHolds(c))
    && (pc.Waiting? ==> Carries(slots, pc.h, pc.cmd, Claimer(c)))
    && (Claiming(pc) ==> 0 <= pc.h < |slots| && slots[pc.h] == Claimed(pc.cmd, c))
    && (pc.HasRead? || HoldsFree(pc) ==> pc.cmd in answers && pc.data == answers[pc.cmd])
  }

  ghost predicate ClientsOk(clients: map<nat, ClientPc>, slots: seq<Slot>, answers: map<Cmd, int>, sender: Option<nat>,
                            holder: Holder) {
    forall c: nat :: ClientOk(c, PcOf(clients, c), slots, answers, sender, holder)
  }

  /** A claimed slot is with the client named in it, and with no other. */
  ghost predicate ClaimsOk(slots: seq<Slot>, clients: map<nat, ClientPc>) {
    forall i :: 0 <= i < |slots| && slots[i].Claimed? ==>
      var pc := PcOf(clients, slots[i].c); Claiming(pc) && pc.cmd == slots[i].cmd && pc.h == i
  }

  ghost predicate HandlesOk(handles: map<Cmd, int>, slots: seq<Slot>) {
    forall cmd :: cmd in handles ==> Carries(slots, handles[cmd], cmd, Shelf)
  }

  // ---------------------------------------------------------------- the handshake

  predicate Resting(pc: ServerPc) { pc.Asleep? || pc.Finishing? }

  predicate Granted(slots: seq<Slot>, cmd: Cmd, h: int) {
    if cmd.xd then Carries(slots, h, cmd, Sender) else h == NO_SLOT
  }

  /** Where the client that holds the send lock stands with the server. */
  predicate Turn(pc: ClientPc, serverMut: bool, recvLock: bool, server: ServerPc, cmd: Cmd, waitId: int,
                 slots: seq<Slot>) {
    && Sending(pc)
    && (!pc.Locked? ==> cmd == pc.cmd)
    && (!pc.Signalled? ==> Resting(server) && serverMut && recvLock)
    && (pc.Signalled? ==>
          if !Resting(server) then serverMut && recvLock
          else (!serverMut && recvLock) || (serverMut && !recvLock && Granted(slots, cmd, waitId)))
    && (pc.Taken? ==> Granted(slots, cmd, waitId))
    && (pc.Got? ==> Granted(slots, cmd, pc.h))
  }

  predicate TurnOk(clients: map<nat, ClientPc>, sendLock: bool, sender: Option<nat>, serverMut: bool, recvLock: bool,
                   server: ServerPc, cmd: Cmd, waitId: int, slots: seq<Slot>) {
    && (sendLock <==> sender.Some?)
    && match sender
       case None => Resting(server) && serverMut && recvLock
       case Some(c) => Turn(PcOf(clients, c), serverMut, recvLock, server, cmd, waitId, slots)
  }

  // ---------------------------------------------------------------- the server's slot and the free stack

  predicate ServerHas(pc: ServerPc, i: int) {
    (pc.Chosen? || pc.Lowered? || pc.Allocated? || pc.Announced? || pc.Delivering? || pc.Delivered?) && pc.id == i
  }

  predicate Mine(slots: seq<Slot>, id: int, cmd: Cmd) { 0 <= id < |slots| && slots[id] == Alloc(cmd) }

  ghost predicate ServingOk(server: ServerPc, cmd: Cmd, waitId: int, slots: seq<Slot>) {
    && (forall i :: 0 <= i < |slots| && slots[i].Alloc? ==> ServerHas(server, i))
    && (server.Choosing? ==> cmd.xd)
    && (server.Chosen? || server.Lowered? || server.Allocated? ==> cmd.xd && Mine(slots, server.id, cmd))
    && (server.Announced? || server.Delivering? || server.Delivered? ==>
          waitId == server.id && if cmd.xd then Mine(slots, server.id, cmd) else server.id == NO_SLOT)
    && (server.Queued? ==> waitId == server.id && Granted(slots, cmd, server.id))
  }

  ghost predicate StackOk(slots: seq<Slot>, freeList: seq<int>, depth: int) {
    && 0 <= depth <= |freeList| == SLOTS
    && (forall p :: 0 <= p < depth ==> 0 <= freeList[p] < |slots| && slots[freeList[p]] == Free(p))
    && (forall i :: 0 <= i < |slots| && slots[i].Free? ==> slots[i].pos < depth && freeList[slots[i].pos] == i)
  }

  /** A slot has been read off the stack and the index not yet lowered, or the index is raised and
      the slot not yet written. */
  predicate Midway(server: ServerPc, holder: Holder, clients: map<nat, ClientPc>) {
    server.Chosen? || (holder.ClientHolds? && PcOf(clients, holder.c).Raised?)
  }

  predicate IndexOk(freeIdx: int, depth: int, midway: bool) {
    0 <= freeIdx < 0x1_0000 && Up(freeIdx) == depth + if midway then 1 else 0
  }

  predicate FreeLockOk(freeLock: bool, holder: Holder, server: ServerPc) {
    && (freeLock <==> holder != Nobody)
    && (holder == ServerHolds <==> server.Choosing? || server.Chosen? || server.Lowered?)
  }

  ghost predicate WaitsOk(slots: seq<Slot>, wait: seq<bool>) {
    |slots| == |wait| && forall i :: 0 <= i < |slots| ==> (!wait[i] <==> slots[i].Ready?)
  }

  // ---------------------------------------------------------------- queues and answers

  predicate ServerInside(pc: ServerPc) { pc.Delivering? || pc.Delivered? || pc.Queued? || pc.Finishing? }

  predicate RegisterInside(pc: RegisterPc) { !pc.Quiet? && !pc.Heard? }

  predicate ServerLockOk(srvLock: bool, server: ServerPc, register: RegisterPc) {
    && (srvLock <==> ServerInside(server) || RegisterInside(register))
    && !(ServerInside(server) && RegisterInside(register))
  }

  /** Slots in flight under a key: once the waiter is woken, the front is on its way out. */
  function Live(inFlight: map<Key, seq<int>>, register: RegisterPc, k: Key): seq<int> {
    var q := QueueOf(inFlight, k);
    if register.Woken? && register.resp.key == k && q != [] then q[1..] else q
  }

  ghost predicate FlyingOk(slots: seq<Slot>, inFlight: map<Key, seq<int>>, register: RegisterPc) {
    && (forall k, p :: 0 <= p < |Live(inFlight, register, k)| ==>
          var i := Live(inFlight, register, k)[p];
          0 <= i < |slots| && slots[i].Flying? && CommandKey(slots[i].cmd.target) == k)
    && (forall i :: 0 <= i < |slots| && slots[i].Flying? ==>
          i in Live(inFlight, register, CommandKey(slots[i].cmd.target)))
  }

  ghost predicate AimedOk(targets: iset<Target>, slots: seq<Slot>) {
    forall i :: 0 <= i < |slots| && slots[i].Flying? ==> slots[i].cmd.target in targets
  }

  function CmdOf(slots: seq<Slot>, i: int): Option<Cmd> {
    if 0 <= i < |slots| && slots[i].Flying? then Some(slots[i].cmd) else None
  }

  function CmdsOf(slots: seq<Slot>, q: seq<int>): seq<Option<Cmd>> {
    seq(|q|, p requires 0 <= p < |q| => CmdOf(slots, q[p]))
  }

  function Somes(q: seq<Cmd>): seq<Option<Cmd>> { seq(|q|, p requires 0 <= p < |q| => Some(q[p])) }

  /** Commands of core `t` whose slot must be in flight: the one being registered, then those the
      core has not answered. */
  function Line(hardware: map<Target, seq<Cmd>>, register: RegisterPc, t: Target): seq<Cmd> {
    var at := (register.Heard? || register.Holding? || register.Front? || register.Stored?) && register.cmd.target == t;
    (if at then [register.cmd] else []) + Owed(hardware, t)
  }

  /** The command delivered to the core and not yet queued. */
  function Arriving(server: ServerPc, cmd: Cmd): Option<Cmd> { if server.Delivered? && cmd.xd then Some(cmd) else None }

  /** The line of core `t` and the in-flight queue of its key agree command by command. */
  ghost predicate RoutedAt(hardware: map<Target, seq<Cmd>>, register: RegisterPc, arriving: Option<Cmd>,
                           slots: seq<Slot>, inFlight: map<Key, seq<int>>, t: Target) {
    Somes(Line(hardware, register, t))
    == CmdsOf(slots, Live(inFlight, register, CommandKey(t)))
       + if arriving.Some? && arriving.value.target == t then [arriving] else []
  }

  ghost predicate RoutingOk(targets: iset<Target>, hardware: map<Target, seq<Cmd>>, register: RegisterPc,
                            arriving: Option<Cmd>, slots: seq<Slot>, inFlight: map<Key, seq<int>>) {
    forall t :: t in targets ==> RoutedAt(hardware, register, arriving, slots, inFlight, t)
  }

  ghost predicate Increasing(q: seq<Cmd>) { forall i, j :: 0 <= i < j < |q| ==> q[i].n < q[j].n }

  ghost predicate OwedOk(targets: iset<Target>, q: seq<Cmd>, t: Target, count: nat, answers: map<Cmd, int>) {
    forall p :: 0 <= p < |q| ==> t in targets && q[p].target == t && q[p].n < count && q[p] !in answers
  }

  ghost predicate LinesOk(targets: iset<Target>, hardware: map<Target, seq<Cmd>>, register: RegisterPc, count: nat,
                          answers: map<Cmd, int>) {
    && (forall t :: Increasing(Line(hardware, register, t)))
    && (forall t :: OwedOk(targets, Owed(hardware, t), t, count, answers))
    && (forall cmd :: cmd in answers ==> cmd.n < count)
  }

  ghost predicate RegisterOk(targets: iset<Target>, pc: RegisterPc, answers: map<Cmd, int>,
                             inFlight: map<Key, seq<int>>, responses: seq<Resp>) {
    && (!pc.Quiet? && !pc.Popped? ==>
          && pc.cmd in answers && pc.cmd.target in targets
          && pc.resp == Resp(ResponseKey(pc.cmd.target), answers[pc.cmd]))
    && (pc.Front? || pc.Stored? || pc.Woken? ==> var q := QueueOf(inFlight, pc.resp.key); q != [] && q[0] == pc.id)
    && (pc.Stored? ==> 0 <= pc.id < |responses| && responses[pc.id] == pc.resp)
  }

  /** A stored response is the answer to the command of its slot. */
  ghost predicate DataOk(slots: seq<Slot>, responses: seq<Resp>, answers: map<Cmd, int>) {
    && |slots| == |responses|
    && forall i :: 0 <= i < |slots| && (slots[i].Ready? || slots[i].Claimed?) ==>
         slots[i].cmd in answers && responses[i].data == answers[slots[i].cmd]
  }

  ghost predicate ResultsOk(results: map<Cmd, int>, answers: map<Cmd, int>) {
    forall cmd :: cmd in results ==> cmd in answers && results[cmd] == answers[cmd]
  }

  /** The send that holds the send lock has not reached the hardware yet. */
  predicate Underway(sender: Option<nat>, clients: map<nat, ClientPc>, server: ServerPc, serverMut: bool) {
    sender.Some? &&
    var pc := PcOf(clients, sender.value);
    pc.Locked? || pc.Written?
    || (pc.Signalled? && if Resting(server) then !serverMut else !server.Delivered? && !server.Queued?)
  }

  /** The hardware has seen every send exactly once, in order, but for the one underway. */
  ghost predicate DeliveriesOk(targets: iset<Target>, delivered: seq<Cmd>, sent: seq<Cmd>, sender: Option<nat>,
                               clients: map<nat, ClientPc>, underway: bool) {
    && (forall i :: 0 <= i < |sent| ==> sent[i].n == i && sent[i].target in targets)
    && delivered <= sent && |sent| == |delivered| + (if underway then 1 else 0)
    && (sender.Some? ==> var pc := PcOf(clients, sender.value); Sending(pc) && sent != [] && pc.cmd == sent[|sent| - 1])
  }

  ghost predicate Inv(targets: iset<Target>, s: State) {
    && Shaped(s)
    && ClientsOk(s.clients, s.slots, s.answers, s.sender, s.holder)
    && ClaimsOk(s.slots, s.clients)
    && HandlesOk(s.handles, s.slots)
    && TurnOk(s.clients, s.sendLock, s.sender, s.serverMut, s.recvLock, s.server, s.cmd, s.waitId, s.slots)
    && ServingOk(s.server, s.cmd, s.waitId, s.slots)
    && StackOk(s.slots, s.freeList, s.depth)
    && IndexOk(s.freeIdx, s.depth, Midway(s.server, s.holder, s.clients))
    && FreeLockOk(s.freeLock, s.holder, s.server)
    && WaitsOk(s.slots, s.wait)
    && ServerLockOk(s.srvLock, s.server, s.register)
    && FlyingOk(s.slots, s.inFlight, s.register)
    && AimedOk(targets, s.slots)
    && RoutingOk(targets, s.hardware, s.register, Arriving(s.server, s.cmd), s.slots, s.inFlight)
    && LinesOk(targets, s.hardware, s.register, |s.delivered|, s.answers)
    && RegisterOk(targets, s.register, s.answers, s.inFlight, s.responses)
    && DataOk(s.slots, s.responses, s.answers)
    && ResultsOk(s.results, s.answers)
    && DeliveriesOk(targets, s.delivered, s.sent, s.sender, s.clients,
                    Underway(s.sender, s.clients, s.server, s.serverMut))
  }

  lemma InitialSlots(targets: iset<Target>)
    ensures var s := Initial();
      && WaitsOk(s.slots, s.wait) && StackOk(s.slots, s.freeList, s.depth) && FlyingOk(s.slots, s.inFlight, s.register)
      && RoutingOk(targets, s.hardware, s.register, Arriving(s.server, s.cmd), s.slots, s.inFlight)
  {
  }

  lemma InitialInv(targets: iset<Target>)
    ensures Inv(targets, Initial())
  {
    InitialSlots(targets);
    hide WaitsOk, StackOk, FlyingOk, RoutingOk;
  }
}
