/** Why response routing needs targets that keep apart: two cores whose ids agree in their low eight
    bits share an in-flight queue, and a client can be given the other core's response. */
module ProtocolLimits {
  import opened CommandProtocol
  import opened ProtocolInvariant
  import opened ProtocolRuns
  import opened Options

  ghost predicate Reachable(targets: iset<Target>, s: State) {
    exists actions :: AllAllowed(targets, actions) && Run(actions) == Ok(s)
  }

  lemma ReachStep(targets: iset<Target>, s: State, a: Action, s': State)
    requires Reachable(targets, s) && Allowed(targets, a) && Shaped(s) && Next(s, a) == Ok(s')
    ensures Reachable(targets, s')
  {
    var actions :| AllAllowed(targets, actions) && Run(actions) == Ok(s);
    var more := actions + [a];
    assert more[..|more| - 1] == actions;
    assert AllAllowed(targets, more) && Run(more) == Ok(s');
  }

  /** Nobody is under way. */
  predicate Still(s: State) {
    && Shaped(s) && PcOf(s.clients, 0) == Idle && s.server == Asleep && s.register == Quiet
    && !s.sendLock && s.serverMut && s.recvLock && !s.freeLock && !s.srvLock
  }

  /** Nobody is under way and a slot is free. */
  predicate Calm(s: State) { Still(s) && 0 <= s.freeIdx < SLOTS }

  /** A calm state after client 0 has sent a command to `t` and nothing else has happened. */
  ghost predicate SentTo(s: State, t: Target, s': State)
    requires Calm(s)
  {
    var cmd, id, k := Cmd(|s.sent|, t, true), s.freeList[s.freeIdx], CommandKey(t);
    && Still(s') && s'.freeIdx == Down(s.freeIdx) && s'.freeList == s.freeList && s'.wait == s.wait
    && s'.handles == s.handles[cmd := id] && s'.inFlight == s.inFlight[k := QueueOf(s.inFlight, k) + [id]]
    && s'.hardware == s.hardware[t := Owed(s.hardware, t) + [cmd]]
    && s'.sent == s.sent + [cmd] && s'.answers == s.answers && s'.results == s.results
  }

  lemma Signal(targets: iset<Target>, s: State, t: Target) returns (s': State)
    requires Reachable(targets, s) && Still(s) && t in targets
    ensures Reachable(targets, s') && Shaped(s')
    ensures var cmd := Cmd(|s.sent|, t, true);
      s' == s.(clients := s.clients[0 := Signalled(cmd)], sendLock := true, sender := Some(0), sent := s.sent + [cmd],
               cmd := cmd, serverMut := false)
  {
    hide Reachable, AllocateStep, DeliverStep, ClaimStep, RegisterStep;
    var cmd := Cmd(|s.sent|, t, true);
    var s1 := s.(clients := s.clients[0 := Locked(cmd)], sendLock := true, sender := Some(0), sent := s.sent + [cmd]);
    ReachStep(targets, s, Send(0, t, true), s1);
    var s2 := s1.(clients := s1.clients[0 := Written(cmd)], cmd := cmd);
    ReachStep(targets, s1, Client(0), s2);
    s' := s2.(clients := s2.clients[0 := Signalled(cmd)], serverMut := false);
    ReachStep(targets, s2, Client(0), s');
    assert s'.clients == s.clients[0 := Signalled(cmd)];
  }

  lemma Choose(targets: iset<Target>, s: State) returns (s': State)
    requires Reachable(targets, s) && Shaped(s) && s.server == Asleep && !s.serverMut && s.cmd.xd && !s.freeLock
    requires 0 <= s.freeIdx < SLOTS
    ensures Reachable(targets, s') && Shaped(s')
    ensures var id := s.freeList[s.freeIdx];
      s' == s.(server := Chosen(id), serverMut := true, freeLock := true, holder := ServerHolds,
               slots := Put(s.slots, id, Alloc(s.cmd)), depth := s.depth - 1)
  {
    hide Reachable, DeliverStep, SendingStep, ClaimStep, RegisterStep;
    var id := s.freeList[s.freeIdx];
    var s1 := s.(server := Awake, serverMut := true);
    ReachStep(targets, s, Server, s1);
    var s2 := s1.(server := Choosing, freeLock := true, holder := ServerHolds);
    ReachStep(targets, s1, Server, s2);
    s' := s2.(server := Chosen(id), slots := Put(s.slots, id, Alloc(s.cmd)), depth := s.depth - 1);
    ReachStep(targets, s2, Server, s');
  }

  lemma Announce(targets: iset<Target>, s: State) returns (s': State)
    requires Reachable(targets, s) && Shaped(s) && s.server.Chosen? && s.freeLock
    ensures Reachable(targets, s') && Shaped(s')
    ensures s' == s.(server := Announced(s.server.id), freeLock := false, holder := Nobody, freeIdx := Down(s.freeIdx),
                     waitId := s.server.id)
  {
    hide Reachable, DeliverStep, SendingStep, ClaimStep, RegisterStep;
    var id := s.server.id;
    var s1 := s.(server := Lowered(id), freeIdx := Down(s.freeIdx));
    ReachStep(targets, s, Server, s1);
    var s2 := s1.(server := Allocated(id), freeLock := false, holder := Nobody);
    ReachStep(targets, s1, Server, s2);
    s' := s2.(server := Announced(id), waitId := id);
    ReachStep(targets, s2, Server, s');
  }

  lemma Deliver(targets: iset<Target>, s: State) returns (s': State)
    requires Reachable(targets, s) && Shaped(s) && s.server.Announced? && s.cmd.xd && !s.srvLock
    ensures Reachable(targets, s') && Shaped(s')
    ensures var id, t := s.server.id, s.cmd.target; var k := CommandKey(t);
      s' == s.(server := Queued(id), srvLock := true, delivered := s.delivered + [s.cmd],
               slots := Put(s.slots, id, Flying(s.cmd, Sender)),
               hardware := s.hardware[t := Owed(s.hardware, t) + [s.cmd]],
               inFlight := s.inFlight[k := QueueOf(s.inFlight, k) + [id]])
  {
    hide Reachable, AllocateStep, SendingStep, ClaimStep, RegisterStep;
    var id, t := s.server.id, s.cmd.target;
    var k := CommandKey(t);
    var s1 := s.(server := Delivering(id), srvLock := true);
    ReachStep(targets, s, Server, s1);
    var s2 := s1.(server := Delivered(id), delivered := s.delivered + [s.cmd],
                  hardware := s.hardware[t := Owed(s.hardware, t) + [s.cmd]]);
    ReachStep(targets, s1, Server, s2);
    s' := s2.(server := Queued(id), inFlight := s.inFlight[k := QueueOf(s.inFlight, k) + [id]],
              slots := Put(s.slots, id, Flying(s.cmd, Sender)));
    ReachStep(targets, s2, Server, s');
  }

  lemma Finish(targets: iset<Target>, s: State) returns (s': State)
    requires Reachable(targets, s) && Shaped(s) && s.server.Queued? && s.srvLock && s.recvLock
    ensures Reachable(targets, s') && Shaped(s') && s' == s.(server := Asleep, srvLock := false, recvLock := false)
  {
    hide Reachable, AllocateStep, SendingStep, ClaimStep, RegisterStep;
    var s1 := s.(server := Finishing, recvLock := false);
    ReachStep(targets, s, Server, s1);
    s' := s1.(server := Asleep, srvLock := false);
    ReachStep(targets, s1, Server, s');
  }

  lemma Receive(targets: iset<Target>, s: State, cmd: Cmd) returns (s': State)
    requires Reachable(targets, s) && Shaped(s) && PcOf(s.clients, 0) == Signalled(cmd) && cmd.xd && !s.recvLock
    requires s.sendLock
    ensures Reachable(targets, s')
    ensures s' == s.(clients := s.clients[0 := Idle], recvLock := true, sendLock := false, sender := None,
                     handles := s.handles[cmd := s.waitId], slots := Hand(s.slots, s.waitId, Shelf))
  {
    hide Reachable, AllocateStep, DeliverStep, ClaimStep, RegisterStep, Hand;
    var s1 := s.(clients := s.clients[0 := Taken(cmd)], recvLock := true);
    ReachStep(targets, s, Client(0), s1);
    var s2 := s1.(clients := s1.clients[0 := Got(cmd, s.waitId)]);
    ReachStep(targets, s1, Client(0), s2);
    s' := s2.(clients := s2.clients[0 := Idle], sendLock := false, sender := None,
              handles := s.handles[cmd := s.waitId], slots := Hand(s.slots, s.waitId, Shelf));
    ReachStep(targets, s2, Client(0), s');
    assert s'.clients == s.clients[0 := Idle];
  }

  /** From a calm state a lone send goes through. */
  lemma SendThrough(targets: iset<Target>, s: State, t: Target) returns (s': State)
    requires Reachable(targets, s) && Calm(s) && t in targets
    ensures Reachable(targets, s') && SentTo(s, t, s')
  {
    hide Reachable;
    var s1 := Signal(targets, s, t);
    var s2 := Choose(targets, s1);
    var s3 := Announce(targets, s2);
    var s4 := Deliver(targets, s3);
    var s5 := Finish(targets, s4);
    s' := Receive(targets, s5, Cmd(|s.sent|, t, true));
  }

  /** The response of core `t` reaches the slot in front of its key's queue. */
  lemma RespondTo(targets: iset<Target>, s: State, t: Target, data: int) returns (s': State)
    requires Reachable(targets, s) && Shaped(s) && s.register == Quiet && !s.srvLock && Owed(s.hardware, t) != []
    requires var q := QueueOf(s.inFlight, ResponseKey(t)); q != [] && InRange(q[0]) && s.wait[q[0]]
    ensures Reachable(targets, s') && Shaped(s')
    ensures var id := QueueOf(s.inFlight, ResponseKey(t))[0];
      && !s'.wait[id] && s'.responses[id].data == data && s'.answers == s.answers[Owed(s.hardware, t)[0] := data]
      && s'.clients == s.clients && s'.handles == s.handles && s'.freeLock == s.freeLock && s'.freeIdx == s.freeIdx
  {
    hide Reachable, AllocateStep, DeliverStep, SendingStep, ClaimStep, ResponseKey;
    var cmd, r, id := Owed(s.hardware, t)[0], Resp(ResponseKey(t), data), QueueOf(s.inFlight, ResponseKey(t))[0];
    var s1 := s.(hardware := s.hardware[t := Owed(s.hardware, t)[1..]], register := Heard(cmd, r),
                 answers := s.answers[cmd := data]);
    ReachStep(targets, s, Answer(t, data), s1);
    var s2 := s1.(register := Holding(cmd, r), srvLock := true);
    ReachStep(targets, s1, Register, s2);
    var s3 := s2.(register := Front(cmd, r, id));
    ReachStep(targets, s2, Register, s3);
    var s4 := s3.(register := Stored(cmd, r, id), responses := s.responses[id := r]);
    ReachStep(targets, s3, Register, s4);
    s' := s4.(register := Woken(cmd, r, id), wait := s.wait[id := false], slots := Ring(s.slots, id));
    ReachStep(targets, s4, Register, s');
  }

  /** Client 0 claims the slot of `cmd` and gets what is stored there. */
  lemma Claim(targets: iset<Target>, s: State, cmd: Cmd) returns (s': State)
    requires Reachable(targets, s) && Shaped(s) && PcOf(s.clients, 0) == Idle && cmd in s.handles && !s.freeLock
    requires 0 <= s.freeIdx < SLOTS - 1
    requires InRange(s.handles[cmd]) && !s.wait[s.handles[cmd]]
    ensures Reachable(targets, s')
    ensures cmd in s'.results && s'.results[cmd] == s.responses[s.handles[cmd]].data && s'.answers == s.answers
  {
    hide Reachable, AllocateStep, DeliverStep, SendingStep, RegisterStep;
    var h := s.handles[cmd];
    var data := s.responses[h].data;
    var s1 := s.(clients := s.clients[0 := Waiting(cmd, h)], handles := s.handles - {cmd},
                 slots := Hand(s.slots, h, Claimer(0)));
    ReachStep(targets, s, Get(0, cmd), s1);
    s' := Fetch(targets, s1, cmd, h);
  }

  lemma Fetch(targets: iset<Target>, s: State, cmd: Cmd, h: int) returns (s': State)
    requires Reachable(targets, s) && Shaped(s) && PcOf(s.clients, 0) == Waiting(cmd, h) && !s.freeLock
    requires 0 <= s.freeIdx < SLOTS - 1
    requires InRange(h) && !s.wait[h]
    ensures Reachable(targets, s')
    ensures cmd in s'.results && s'.results[cmd] == s.responses[h].data && s'.answers == s.answers
  {
    hide Reachable, AllocateStep, DeliverStep, SendingStep, RegisterStep;
    var data := s.responses[h].data;
    var s1 := s.(clients := s.clients[0 := Owned(cmd, h)], wait := s.wait[h := true],
                 slots := Put(s.slots, h, Claimed(cmd, 0)));
    ReachStep(targets, s, Client(0), s1);
    var s2 := s1.(clients := s1.clients[0 := HasRead(cmd, h, data)]);
    ReachStep(targets, s1, Client(0), s2);
    s' := Release(targets, s2, cmd, h, data);
  }

  lemma Release(targets: iset<Target>, s: State, cmd: Cmd, h: int, data: int) returns (s': State)
    requires Reachable(targets, s) && Shaped(s) && PcOf(s.clients, 0) == HasRead(cmd, h, data) && !s.freeLock
    requires 0 <= s.freeIdx < SLOTS - 1
    ensures Reachable(targets, s') && cmd in s'.results && s'.results[cmd] == data && s'.answers == s.answers
  {
    hide Reachable, AllocateStep, DeliverStep, SendingStep, RegisterStep;
    var s1 := s.(clients := s.clients[0 := Freeing(cmd, h, data)], freeLock := true, holder := ClientHolds(0));
    ReachStep(targets, s, Client(0), s1);
    var s2 := s1.(clients := s1.clients[0 := Raised(cmd, h, data)], freeIdx := Up(s.freeIdx));
    ReachStep(targets, s1, Client(0), s2);
    s' := Return(targets, s2, cmd, h, data);
  }

  lemma Return(targets: iset<Target>, s: State, cmd: Cmd, h: int, data: int) returns (s': State)
    requires Reachable(targets, s) && Shaped(s) && PcOf(s.clients, 0) == Raised(cmd, h, data) && s.freeLock
    requires InRange(s.freeIdx)
    ensures Reachable(targets, s') && cmd in s'.results && s'.results[cmd] == data && s'.answers == s.answers
  {
    hide Reachable, AllocateStep, DeliverStep, SendingStep, RegisterStep;
    var s1 := s.(clients := s.clients[0 := Pushed(cmd, data)], freeList := s.freeList[s.freeIdx := h],
                 slots := Put(s.slots, h, Free(s.freeIdx)), depth := s.depth + 1);
    ReachStep(targets, s, Client(0), s1);
    s' := s1.(clients := s1.clients[0 := Idle], freeLock := false, holder := Nobody, results := s.results[cmd := data]);
    ReachStep(targets, s1, Client(0), s');
  }

  lemma StartReachable(targets: iset<Target>)
    ensures Reachable(targets, Initial()) && Calm(Initial())
  {
    assert Run([]) == Ok(Initial()) && AllAllowed(targets, []);
  }

  lemma OneSent(targets: iset<Target>, a: Target) returns (s: State)
    requires a in targets
    ensures Reachable(targets, s) && Calm(s) && s.sent == [Cmd(0, a, true)]
    ensures s.freeIdx == SLOTS - 2 && s.freeList == seq(SLOTS, i => i) && s.wait == seq(SLOTS, _ => true)
    ensures s.answers == map[]
    ensures s.hardware == map[a := [Cmd(0, a, true)]] && s.inFlight == map[CommandKey(a) := [SLOTS - 1]]
    ensures s.handles == map[Cmd(0, a, true) := SLOTS - 1]
  {
    hide Reachable, CommandKey, Run;
    StartReachable(targets);
    var s0 := Initial();
    s := SendThrough(targets, s0, a);
    var none: seq<int> := [];
    assert QueueOf(s0.inFlight, CommandKey(a)) == none && Owed(s0.hardware, a) == [];
    assert s0.freeList[SLOTS - 1] == SLOTS - 1 && none + [SLOTS - 1] == [SLOTS - 1];
  }

  /** After one send to each, both slots wait in one queue. */
  lemma BothSent(targets: iset<Target>, a: Target, b: Target) returns (s: State)
    requires a in targets && b in targets && a != b && CommandKey(a) == CommandKey(b)
    ensures Reachable(targets, s) && Shaped(s) && PcOf(s.clients, 0) == Idle && s.register == Quiet && !s.srvLock
    ensures !s.freeLock
    ensures s.freeIdx == SLOTS - 3 && s.wait == seq(SLOTS, _ => true) && s.answers == map[]
    ensures Owed(s.hardware, b) == [Cmd(1, b, true)] && QueueOf(s.inFlight, CommandKey(b)) == [SLOTS - 1, SLOTS - 2]
    ensures Cmd(0, a, true) in s.handles && s.handles[Cmd(0, a, true)] == SLOTS - 1
  {
    hide Reachable, CommandKey, Run;
    var s1 := OneSent(targets, a);
    s := SendThrough(targets, s1, b);
    assert Owed(s1.hardware, b) == [] && QueueOf(s1.inFlight, CommandKey(b)) == [SLOTS - 1];
  }

  /** Two cores in use with one key between them: some run hands a client a response to a command
      that nobody has answered. */
  lemma Misrouted(targets: iset<Target>, a: Target, b: Target) returns (actions: seq<Action>, cmd: Cmd)
    requires a in targets && b in targets && a != b && CommandKey(a) == CommandKey(b) && ResponseKey(b) == CommandKey(b)
    ensures AllAllowed(targets, actions) && Run(actions).Ok?
    ensures cmd in Run(actions).s.results && cmd !in Run(actions).s.answers
  {
    hide Run, ResponseKey, CommandKey;
    cmd := Cmd(0, a, true);
    var s := BothSent(targets, a, b);
    var s1 := RespondTo(targets, s, b, 0);
    var s2 := Claim(targets, s1, cmd);
    actions :| AllAllowed(targets, actions) && Run(actions) == Ok(s2);
  }

  /** Every result that a client got answers its own command. */
  ghost predicate WellRouted(s: State) {
    forall cmd :: cmd in s.results ==> cmd in s.answers && s.results[cmd] == s.answers[cmd]
  }

  /** Core ids that differ in their low eight bits, among systems that fit a byte. */
  ghost predicate LowBytesDiffer(targets: iset<Target>) {
    forall a, b :: a in targets && b in targets && a.system == b.system && a.core % 256 == b.core % 256 ==> a == b
  }

  lemma LowBytesSeparate(targets: iset<Target>)
    requires forall t :: t in targets ==> t.system < 256
    ensures Separable(targets) <==> LowBytesDiffer(targets)
  {
    if Separable(targets) {
      forall a, b | a in targets && b in targets && a.system == b.system && a.core % 256 == b.core % 256
          ensures a == b {
        assert CommandKey(a) == ResponseKey(b);
      }
    }
  }

  /** Responses reach their own commands in every run if and only if no two cores in use share the
      low eight bits of their ids, which ids below 256 never do. */
  lemma RoutingIffLowBytesDiffer(targets: iset<Target>)
    requires forall t :: t in targets ==> t.system < 256
    ensures LowBytesDiffer(targets) <==>
      forall actions :: AllAllowed(targets, actions) && Run(actions).Ok? ==> WellRouted(Run(actions).s)
  {
    LowBytesSeparate(targets);
    if LowBytesDiffer(targets) {
      forall actions | AllAllowed(targets, actions) && Run(actions).Ok? ensures WellRouted(Run(actions).s) {
        ResponseRouting(targets, actions);
      }
    } else {
      var a, b :| a in targets && b in targets && a.system == b.system && a.core % 256 == b.core % 256 && a != b;
      var actions, cmd := Misrouted(targets, a, b);
      assert !WellRouted(Run(actions).s);
    }
  }

  // ---------------------------------------------------------------- all slots taken

  /** Sends of which none is claimed take one slot each. */
  lemma {:induction false} ManySent(targets: iset<Target>, t: Target, n: nat) returns (s: State)
    requires t in targets && n <= SLOTS
    ensures Reachable(targets, s) && Still(s) && s.freeIdx == (SLOTS - 1 - n) % 0x1_0000
    decreases n
  {
    hide Reachable, Run;
    if n == 0 {
      StartReachable(targets);
      s := Initial();
    } else {
      var s0 := ManySent(targets, t, n - 1);
      s := SendThrough(targets, s0, t);
    }
  }

  /** Some run allocates with no slot free: 256 sends that nobody claims, and one more. */
  lemma ExhaustionReached(targets: iset<Target>, t: Target) returns (actions: seq<Action>)
    requires t in targets
    ensures AllAllowed(targets, actions) && Run(actions).Fault?
  {
    hide Run;
    var s := Choosing256(targets, t);
    var before :| AllAllowed(targets, before) && Run(before) == Ok(s);
    actions := before + [Server];
    RunSnoc(before, Server);
  }

  lemma RunSnoc(actions: seq<Action>, a: Action)
    requires Run(actions).Ok? && Shaped(Run(actions).s)
    ensures Run(actions + [a]) == Next(Run(actions).s, a)
  {
    assert (actions + [a])[..|actions|] == actions;
  }

  lemma Choosing256(targets: iset<Target>, t: Target) returns (s: State)
    requires t in targets
    ensures Reachable(targets, s) && Shaped(s) && Next(s, Server) == Fault
  {
    hide Reachable, DeliverStep, SendingStep, ClaimStep, RegisterStep;
    var s0 := ManySent(targets, t, SLOTS);
    var s1 := Signal(targets, s0, t);
    var s2 := s1.(server := Awake, serverMut := true);
    ReachStep(targets, s1, Server, s2);
    s := s2.(server := Choosing, freeLock := true, holder := ServerHolds);
    ReachStep(targets, s2, Server, s);
  }
}
