/** A bound that applications can keep: while no more than 256 commands with a response are sent and not
    yet collected, no run faults. */
module ProtocolCounts {
  import opened CommandProtocol
  import opened ProtocolInvariant
  import opened ProtocolProofs
  import opened ProtocolRuns
  import opened Options

  /** Commands with a response that were sent and whose response no application has. */
  function Outstanding(s: State): set<Cmd> { set cmd | cmd in s.sent && cmd.xd && cmd !in s.results }

  // ---------------------------------------------------------------- each slot has its own command

  function CmdIn(slot: Slot): Option<Cmd> { if slot.Free? then None else Some(slot.cmd) }

  function CmdsIn(slots: seq<Slot>): seq<Option<Cmd>> { seq(|slots|, i requires 0 <= i < |slots| => CmdIn(slots[i])) }

  /** The command being sent has not been given a slot. */
  predicate Unslotted(clients: map<nat, ClientPc>, sender: Option<nat>, server: ServerPc, serverMut: bool) {
    sender.Some? &&
    var pc := PcOf(clients, sender.value);
    || pc.Locked? || pc.Written?
    || (pc.Signalled? && ((Resting(server) && !serverMut) || server.Awake? || server.Choosing?))
  }

  /** Commands in slots are outstanding, each is in one slot, and the one without a slot is in none. */
  ghost predicate SlotsCounted(cmds: seq<Option<Cmd>>, sent: seq<Cmd>, results: map<Cmd, int>, unslotted: bool) {
    && (forall i :: 0 <= i < |cmds| && cmds[i].Some? ==>
          var cmd := cmds[i].value;
          cmd.xd && cmd !in results && cmd.n < (|sent| - if unslotted then 1 else 0) && sent[cmd.n] == cmd)
    && (forall i, j :: 0 <= i < j < |cmds| && cmds[i].Some? ==> cmds[i] != cmds[j])
  }

  /** A slot is given back before its response is handed over. */
  ghost predicate PushedApart(cmds: seq<Option<Cmd>>, clients: map<nat, ClientPc>) {
    forall c: nat, i :: 0 <= i < |cmds| && PcOf(clients, c).Pushed? ==> cmds[i] != Some(PcOf(clients, c).cmd)
  }

  ghost predicate Counted(s: State) {
    && SlotsCounted(CmdsIn(s.slots), s.sent, s.results, Unslotted(s.clients, s.sender, s.server, s.serverMut))
    && PushedApart(CmdsIn(s.slots), s.clients)
  }

  /** What most steps do to the books: nothing. */
  ghost predicate SameBooks(s: State, s': State) {
    && CmdsIn(s'.slots) == CmdsIn(s.slots) && s'.sent == s.sent && s'.results == s.results
    && (forall c: nat :: PcOf(s'.clients, c).Pushed? ==> PcOf(s'.clients, c) == PcOf(s.clients, c))
    && (Unslotted(s'.clients, s'.sender, s'.server, s'.serverMut) ==>
          Unslotted(s.clients, s.sender, s.server, s.serverMut))
  }

  lemma SameCounted(s: State, s': State)
    requires Counted(s) && SameBooks(s, s')
    ensures Counted(s')
  {
    hide Unslotted, CmdsIn;
  }

  lemma HandSame(slots: seq<Slot>, h: int, who: Who)
    ensures CmdsIn(Hand(slots, h, who)) == CmdsIn(slots)
  {
  }

  lemma RingSame(slots: seq<Slot>, h: int)
    ensures CmdsIn(Ring(slots, h)) == CmdsIn(slots)
  {
  }

  lemma PutSame(slots: seq<Slot>, h: int, slot: Slot)
    requires 0 <= h < |slots| ==> CmdIn(slots[h]) == CmdIn(slot)
    ensures CmdsIn(Put(slots, h, slot)) == CmdsIn(slots)
  {
  }

  // ---------------------------------------------------------------- sends

  lemma SendCounts(targets: iset<Target>, s: State, c: nat, target: Target, xd: bool)
    requires Inv(targets, s) && Counted(s) && SendStep(s, c, target, xd).Ok?
    ensures Counted(SendStep(s, c, target, xd).s)
  {
    var s' := SendStep(s, c, target, xd).s;
    hide Inv, Unslotted, CmdsIn;
    assert s'.sent[..|s.sent|] == s.sent;
    forall k: nat, i | 0 <= i < |CmdsIn(s.slots)| && PcOf(s'.clients, k).Pushed?
      ensures CmdsIn(s.slots)[i] != Some(PcOf(s'.clients, k).cmd)
    {
      assert PcOf(s'.clients, k) == PcOf(s.clients, k);
    }
  }

  /** A client moves on, and hands over at most a handle. */
  lemma ClientMoves(s: State, s': State, c: nat, pc: ClientPc)
    requires Counted(s) && CmdsIn(s'.slots) == CmdsIn(s.slots) && s'.sent == s.sent && s'.results == s.results
    requires s'.clients == s.clients[c := pc] && !pc.Pushed?
    requires Unslotted(s'.clients, s'.sender, s'.server, s'.serverMut) ==>
        Unslotted(s.clients, s.sender, s.server, s.serverMut)
    ensures Counted(s')
  {
    hide Counted, CmdsIn, Unslotted;
    assert forall k: nat :: k != c ==> PcOf(s'.clients, k) == PcOf(s.clients, k);
    SameCounted(s, s');
  }

  lemma WriteCounts(s: State, s': State, c: nat)
    requires Counted(s) && PcOf(s.clients, c).Locked? && SendingStep(s, c) == Ok(s') && s.sender == Some(c)
    ensures Counted(s')
  {
    hide Counted, CmdsIn;
    ClientMoves(s, s', c, Written(PcOf(s.clients, c).cmd));
  }

  lemma SignalCounts(s: State, s': State, c: nat)
    requires Counted(s) && PcOf(s.clients, c).Written? && SendingStep(s, c) == Ok(s') && s.sender == Some(c)
    ensures Counted(s')
  {
    hide Counted, CmdsIn;
    ClientMoves(s, s', c, Signalled(PcOf(s.clients, c).cmd));
  }

  lemma TakeCounts(s: State, s': State, c: nat)
    requires Counted(s) && PcOf(s.clients, c).Signalled? && SendingStep(s, c) == Ok(s') && s.sender == Some(c)
    ensures Counted(s')
  {
    hide Counted, CmdsIn;
    ClientMoves(s, s', c, Taken(PcOf(s.clients, c).cmd));
  }

  lemma GetIdCounts(s: State, s': State, c: nat)
    requires Counted(s) && PcOf(s.clients, c).Taken? && SendingStep(s, c) == Ok(s') && s.sender == Some(c)
    ensures Counted(s')
  {
    hide Counted, CmdsIn;
    ClientMoves(s, s', c, Got(PcOf(s.clients, c).cmd, s.waitId));
  }

  lemma SendingCounts(targets: iset<Target>, s: State, c: nat)
    requires Inv(targets, s) && Counted(s) && Sending(PcOf(s.clients, c)) && SendingStep(s, c).Ok?
    ensures Counted(SendingStep(s, c).s)
  {
    hide Inv, Counted, SendingStep;
    SenderIs(targets, s, c);
    var s' := SendingStep(s, c).s;
    match PcOf(s.clients, c)
    case Locked(_) => WriteCounts(s, s', c);
    case Written(_) => SignalCounts(s, s', c);
    case Signalled(_) => TakeCounts(s, s', c);
    case Taken(_) => GetIdCounts(s, s', c);
    case Got(cmd, h) => GotCounts(s, c, cmd, h);
  }

  lemma GotCounts(s: State, c: nat, cmd: Cmd, h: int)
    requires Counted(s) && PcOf(s.clients, c) == Got(cmd, h) && SendingStep(s, c).Ok?
    ensures Counted(SendingStep(s, c).s)
  {
    hide Counted, CmdsIn, Hand;
    HandSame(s.slots, h, Shelf);
    ClientMoves(s, SendingStep(s, c).s, c, Idle);
  }

  lemma SenderIs(targets: iset<Target>, s: State, c: nat)
    requires Inv(targets, s) && Sending(PcOf(s.clients, c))
    ensures s.sender == Some(c) && (PcOf(s.clients, c).Written? ==> Resting(s.server))
  {
    ClientAt(s, c);
    hide ClientsOk, StackOk, FlyingOk, ClaimsOk, ServingOk, RoutingOk, LinesOk, RegisterOk, AimedOk, WaitsOk, DataOk,
         HandlesOk, ResultsOk, DeliveriesOk;
  }

  // ---------------------------------------------------------------- gets

  lemma GetCounts(s: State, c: nat, cmd: Cmd)
    requires Counted(s) && GetStep(s, c, cmd).Ok? && s.sender != Some(c)
    ensures Counted(GetStep(s, c, cmd).s)
  {
    hide Counted, CmdsIn, Hand;
    HandSame(s.slots, s.handles[cmd], Claimer(c));
    ClientMoves(s, GetStep(s, c, cmd).s, c, Waiting(cmd, s.handles[cmd]));
  }

  lemma NotSending(targets: iset<Target>, s: State, c: nat)
    requires Inv(targets, s) && !Sending(PcOf(s.clients, c))
    ensures s.sender != Some(c)
  {
    ClientAt(s, c);
    hide ClientsOk, StackOk, FlyingOk, ClaimsOk, ServingOk, RoutingOk, LinesOk, RegisterOk, AimedOk, WaitsOk, DataOk,
         HandlesOk, ResultsOk, DeliveriesOk;
  }

  lemma GiveUpCounts(s: State, c: nat)
    requires Shaped(s) && Counted(s) && GiveUpStep(s, c).Ok? && s.sender != Some(c)
    ensures Counted(GiveUpStep(s, c).s)
  {
    hide Counted, CmdsIn, Hand;
    HandSame(s.slots, PcOf(s.clients, c).h, Shelf);
    ClientMoves(s, GiveUpStep(s, c).s, c, Idle);
  }

  lemma ClientFacts(targets: iset<Target>, s: State, c: nat)
    requires Inv(targets, s)
    ensures Shaped(s) && ClientOk(c, PcOf(s.clients, c), s.slots, s.answers, s.sender, s.holder)
  {
    InvShaped(targets, s);
    hide Inv, ClientsOk;
    ClientAt(s, c);
  }

  lemma OwnCounts(s: State, s': State, c: nat)
    requires Counted(s) && Shaped(s) && PcOf(s.clients, c).Waiting? && ClaimStep(s, c) == Ok(s')
    requires ClientOk(c, PcOf(s.clients, c), s.slots, s.answers, s.sender, s.holder)
    ensures Counted(s')
  {
    hide Counted, CmdsIn, Put;
    var pc := PcOf(s.clients, c);
    PutSame(s.slots, pc.h, Claimed(pc.cmd, c));
    ClientMoves(s, s', c, Owned(pc.cmd, pc.h));
  }

  lemma ReadCounts(s: State, s': State, c: nat)
    requires Counted(s) && Shaped(s) && PcOf(s.clients, c).Owned? && ClaimStep(s, c) == Ok(s') && s.sender != Some(c)
    ensures Counted(s')
  {
    hide Counted, CmdsIn;
    var pc := PcOf(s.clients, c);
    ClientMoves(s, s', c, HasRead(pc.cmd, pc.h, s.responses[pc.h].data));
  }

  lemma LockCounts(s: State, s': State, c: nat)
    requires Counted(s) && Shaped(s) && PcOf(s.clients, c).HasRead? && ClaimStep(s, c) == Ok(s') && s.sender != Some(c)
    ensures Counted(s')
  {
    hide Counted, CmdsIn;
    var pc := PcOf(s.clients, c);
    ClientMoves(s, s', c, Freeing(pc.cmd, pc.h, pc.data));
  }

  lemma RaiseCounts(s: State, s': State, c: nat)
    requires Counted(s) && Shaped(s) && PcOf(s.clients, c).Freeing? && ClaimStep(s, c) == Ok(s') && s.sender != Some(c)
    ensures Counted(s')
  {
    hide Counted, CmdsIn;
    var pc := PcOf(s.clients, c);
    ClientMoves(s, s', c, Raised(pc.cmd, pc.h, pc.data));
  }

  lemma ClaimCounts(targets: iset<Target>, s: State, c: nat)
    requires Inv(targets, s) && Counted(s) && Shaped(s) && !Sending(PcOf(s.clients, c)) && ClaimStep(s, c).Ok?
    ensures Counted(ClaimStep(s, c).s)
  {
    Claims(s, c);
    hide Inv, Counted, ClaimStep;
    ClientFacts(targets, s, c);
    var s' := ClaimStep(s, c).s;
    match PcOf(s.clients, c)
    case Waiting(_, _) => OwnCounts(s, s', c);
    case Owned(_, _) => ReadCounts(s, s', c);
    case HasRead(_, _, _) => LockCounts(s, s', c);
    case Freeing(_, _, _) => RaiseCounts(s, s', c);
    case Raised(_, _, _) => PushCounts(s, c);
    case Pushed(_, _) => HandOverCounts(s, s', c);
    case _ =>
  }

  lemma Claims(s: State, c: nat)
    requires Shaped(s) && ClaimStep(s, c).Ok?
    ensures !Sending(PcOf(s.clients, c)) && PcOf(s.clients, c) != Idle
  {
  }

  lemma HandOverCounts(s: State, s': State, c: nat)
    requires Counted(s) && Shaped(s) && PcOf(s.clients, c).Pushed? && ClaimStep(s, c) == Ok(s') && s.sender != Some(c)
    ensures Counted(s')
  {
    hide Counted, CmdsIn;
    CollectCounts(s, s', c, PcOf(s.clients, c).cmd, PcOf(s.clients, c).data);
  }

  lemma PushCounts(s: State, c: nat)
    requires Counted(s) && Shaped(s) && PcOf(s.clients, c).Raised? && ClaimStep(s, c).Ok?
    requires ClientOk(c, PcOf(s.clients, c), s.slots, s.answers, s.sender, s.holder)
    ensures Counted(ClaimStep(s, c).s)
  {
    hide Counted, Put;
    var pc := PcOf(s.clients, c);
    PutFree(s.slots, pc.h, s.freeIdx);
    FreeCounts(s, ClaimStep(s, c).s, c, pc.cmd, pc.h, pc.data, s.freeIdx);
  }

  lemma PutFree(slots: seq<Slot>, h: int, p: nat)
    requires 0 <= h < |slots|
    ensures Put(slots, h, Free(p)) == slots[h := Free(p)]
  {
  }

  /** A slot is given back: its command was in no other. */
  lemma FreeCounts(s: State, s': State, c: nat, cmd: Cmd, h: int, data: int, p: nat)
    requires Counted(s) && 0 <= h < |s.slots| && s.slots[h] == Claimed(cmd, c) && s.sender != Some(c)
    requires s'.clients == s.clients[c := Pushed(cmd, data)] && s'.slots == s.slots[h := Free(p)]
    requires s'.sent == s.sent && s'.results == s.results && s'.sender == s.sender && s'.server == s.server
    requires s'.serverMut == s.serverMut
    ensures Counted(s')
  {
    var cmds, cmds' := CmdsIn(s.slots), CmdsIn(s'.slots);
    assert cmds' == cmds[h := None] && cmds[h] == Some(cmd);
    hide CmdsIn;
    assert s.sender.Some? ==> PcOf(s'.clients, s.sender.value) == PcOf(s.clients, s.sender.value);
    forall k: nat, i | 0 <= i < |cmds'| && PcOf(s'.clients, k).Pushed?
        ensures cmds'[i] != Some(PcOf(s'.clients, k).cmd) {
      if k == c { assert i != h ==> cmds[i] != cmds[h]; } else { assert PcOf(s'.clients, k) == PcOf(s.clients, k); }
    }
  }

  /** The response is handed over: its command is in no slot any more. */
  lemma CollectCounts(s: State, s': State, c: nat, cmd: Cmd, data: int)
    requires Counted(s) && PcOf(s.clients, c) == Pushed(cmd, data) && s.sender != Some(c)
    requires s'.clients == s.clients[c := Idle] && s'.slots == s.slots && s'.results == s.results[cmd := data]
    requires s'.sent == s.sent && s'.sender == s.sender && s'.server == s.server && s'.serverMut == s.serverMut
    ensures Counted(s')
  {
    hide CmdsIn;
    assert s.sender.Some? ==> PcOf(s'.clients, s.sender.value) == PcOf(s.clients, s.sender.value);
    forall k: nat, i | 0 <= i < |CmdsIn(s.slots)| && PcOf(s'.clients, k).Pushed?
      ensures CmdsIn(s.slots)[i] != Some(PcOf(s'.clients, k).cmd)
    {
      assert PcOf(s'.clients, k) == PcOf(s.clients, k);
    }
  }

  // ---------------------------------------------------------------- the server and the response thread

  /** The server moves on without giving out a slot. */
  lemma ServerMoves(s: State, s': State)
    requires Counted(s) && CmdsIn(s'.slots) == CmdsIn(s.slots) && s'.sent == s.sent && s'.results == s.results
    requires s'.clients == s.clients
    requires Unslotted(s'.clients, s'.sender, s'.server, s'.serverMut) ==>
        Unslotted(s.clients, s.sender, s.server, s.serverMut)
    ensures Counted(s')
  {
    hide Counted, CmdsIn, Unslotted;
    SameCounted(s, s');
  }

  /** What the invariant says of the sender and the server. */
  lemma TurnFacts(targets: iset<Target>, s: State)
    requires Inv(targets, s)
    ensures s.server.Awake? || s.server.Choosing? || (Resting(s.server) && !s.serverMut) ==>
      && s.sender.Some? && PcOf(s.clients, s.sender.value).Signalled? && s.cmd == PcOf(s.clients, s.sender.value).cmd
    ensures !Resting(s.server) ==> s.serverMut
  {
    hide ClientsOk, StackOk, FlyingOk, ClaimsOk, ServingOk, RoutingOk, LinesOk, RegisterOk, AimedOk, WaitsOk, DataOk,
         HandlesOk, ResultsOk, DeliveriesOk;
  }

  /** The sender has signalled and waits. */
  predicate SignalledNow(s: State) { s.sender.Some? && PcOf(s.clients, s.sender.value).Signalled? }

  lemma WakeCounts(s: State, s': State)
    requires Counted(s) && Shaped(s) && AllocateStep(s) == Ok(s') && s.server.Asleep? && SignalledNow(s)
    ensures Counted(s')
  {
    hide Counted, CmdsIn, Owed, QueueOf;
    ServerMoves(s, s');
  }

  lemma PlainCounts(s: State, s': State)
    requires Counted(s) && Shaped(s) && AllocateStep(s) == Ok(s') && s.server.Awake? && SignalledNow(s) && !s.cmd.xd
    ensures Counted(s')
  {
    hide Counted, CmdsIn, Owed, QueueOf;
    ServerMoves(s, s');
  }

  lemma ChoiceCounts(s: State, s': State)
    requires Counted(s) && Shaped(s) && AllocateStep(s) == Ok(s') && s.server.Awake? && SignalledNow(s) && s.cmd.xd
    ensures Counted(s')
  {
    hide Counted, CmdsIn, Owed, QueueOf;
    ServerMoves(s, s');
  }

  lemma LowerCounts(s: State, s': State)
    requires Counted(s) && Shaped(s) && AllocateStep(s) == Ok(s') && s.server.Chosen?
    ensures Counted(s')
  {
    hide Counted, CmdsIn, Owed, QueueOf;
    ServerMoves(s, s');
  }

  lemma UnlockCounts(s: State, s': State)
    requires Counted(s) && Shaped(s) && AllocateStep(s) == Ok(s') && s.server.Lowered?
    ensures Counted(s')
  {
    hide Counted, CmdsIn, Owed, QueueOf;
    ServerMoves(s, s');
  }

  lemma AnnounceCounts(s: State, s': State)
    requires Counted(s) && Shaped(s) && AllocateStep(s) == Ok(s') && s.server.Allocated?
    ensures Counted(s')
  {
    hide Counted, CmdsIn, Owed, QueueOf;
    ServerMoves(s, s');
  }

  lemma AllocateCounts(targets: iset<Target>, s: State)
    requires Inv(targets, s) && Counted(s) && Shaped(s) && !s.server.Choosing? && AllocateStep(s).Ok?
    ensures Counted(AllocateStep(s).s)
  {
    TurnFacts(targets, s);
    WakesSignalled(s);
    hide Inv, Counted, AllocateStep;
    var s' := AllocateStep(s).s;
    match s.server
    case Asleep => WakeCounts(s, s');
    case Awake => if s.cmd.xd { ChoiceCounts(s, s'); } else { PlainCounts(s, s'); }
    case Chosen(_) => LowerCounts(s, s');
    case Lowered(_) => UnlockCounts(s, s');
    case Allocated(_) => AnnounceCounts(s, s');
    case _ =>
  }

  lemma WakesSignalled(s: State)
    requires Shaped(s) && AllocateStep(s).Ok?
    ensures s.server.Asleep? ==> !s.serverMut
    ensures Allocating(s.server)
  {
  }

  lemma EnterCounts(s: State, s': State)
    requires Counted(s) && Shaped(s) && DeliverStep(s) == Ok(s') && s.server.Announced?
    ensures Counted(s')
  {
    hide Counted, CmdsIn, Owed, QueueOf;
    ServerMoves(s, s');
  }

  lemma SinkPlainCounts(s: State, s': State)
    requires Counted(s) && Shaped(s) && DeliverStep(s) == Ok(s') && s.server.Delivering? && !s.cmd.xd
    ensures Counted(s')
  {
    hide Counted, CmdsIn, Owed, QueueOf;
    ServerMoves(s, s');
  }

  lemma SinkXdCounts(s: State, s': State)
    requires Counted(s) && Shaped(s) && DeliverStep(s) == Ok(s') && s.server.Delivering? && s.cmd.xd
    ensures Counted(s')
  {
    hide Counted, CmdsIn, Owed, QueueOf;
    ServerMoves(s, s');
  }

  lemma ReplyCounts(s: State, s': State)
    requires Counted(s) && Shaped(s) && DeliverStep(s) == Ok(s') && s.server.Queued? && s.serverMut
    ensures Counted(s')
  {
    hide Counted, CmdsIn, Owed, QueueOf;
    ServerMoves(s, s');
  }

  lemma SleepCounts(s: State, s': State)
    requires Counted(s) && Shaped(s) && DeliverStep(s) == Ok(s') && s.server.Finishing?
    ensures Counted(s')
  {
    hide Counted, CmdsIn, Owed, QueueOf;
    ServerMoves(s, s');
  }

  lemma QueueCounts(s: State, s': State)
    requires Counted(s) && Shaped(s) && DeliverStep(s) == Ok(s') && s.server.Delivered?
    requires s.cmd.xd ==> 0 <= s.server.id < |s.slots| && s.slots[s.server.id] == Alloc(s.cmd)
    ensures Counted(s')
  {
    hide Counted, CmdsIn, Put, QueueOf;
    if s.cmd.xd { PutSame(s.slots, s.server.id, Flying(s.cmd, Sender)); }
    ServerMoves(s, s');
  }

  lemma DeliverCounts(targets: iset<Target>, s: State)
    requires Inv(targets, s) && Counted(s) && Shaped(s) && DeliverStep(s).Ok?
    ensures Counted(DeliverStep(s).s)
  {
    TurnFacts(targets, s);
    Delivers(s);
    hide Inv, Counted, DeliverStep;
    var s' := DeliverStep(s).s;
    match s.server
    case Announced(_) => EnterCounts(s, s');
    case Delivering(_) => if s.cmd.xd { SinkXdCounts(s, s'); } else { SinkPlainCounts(s, s'); }
    case Delivered(_) =>
      if s.cmd.xd { SlotFacts(targets, s); }
      QueueCounts(s, s');
    case Queued(_) => ReplyCounts(s, s');
    case Finishing => SleepCounts(s, s');
    case _ =>
  }

  lemma Delivers(s: State)
    requires Shaped(s) && DeliverStep(s).Ok?
    ensures !Allocating(s.server)
  {
  }

  lemma SlotFacts(targets: iset<Target>, s: State)
    requires Inv(targets, s) && s.server.Delivered? && s.cmd.xd
    ensures 0 <= s.server.id < |s.slots| && s.slots[s.server.id] == Alloc(s.cmd)
  {
    hide ClientsOk, StackOk, FlyingOk, ClaimsOk, TurnOk, RoutingOk, LinesOk, RegisterOk, AimedOk, WaitsOk, DataOk,
         HandlesOk, ResultsOk, DeliveriesOk;
  }

  /** The fields that the books look at. */
  predicate SameFields(s: State, s': State) {
    && s'.sent == s.sent && s'.results == s.results && s'.clients == s.clients && s'.sender == s.sender
    && s'.server == s.server && s'.serverMut == s.serverMut
  }

  lemma FieldsCounted(s: State, s': State)
    requires Counted(s) && SameFields(s, s') && CmdsIn(s'.slots) == CmdsIn(s.slots)
    ensures Counted(s')
  {
    hide CmdsIn, SlotsCounted, PushedApart, Unslotted;
  }

  lemma HoldCounts(s: State, s': State)
    requires Counted(s) && Shaped(s) && RegisterStep(s) == Ok(s') && s.register.Heard?
    ensures Counted(s')
  {
    hide Counted, CmdsIn, QueueOf;
    FieldsCounted(s, s');
  }

  lemma FrontCounts(s: State, s': State)
    requires Counted(s) && Shaped(s) && RegisterStep(s) == Ok(s') && s.register.Holding?
    ensures Counted(s')
  {
    hide Counted, CmdsIn, QueueOf;
    FieldsCounted(s, s');
  }

  lemma StoreCounts(s: State, s': State)
    requires Counted(s) && Shaped(s) && RegisterStep(s) == Ok(s') && s.register.Front?
    ensures Counted(s')
  {
    hide Counted, CmdsIn, QueueOf;
    FieldsCounted(s, s');
  }

  lemma PopCounts(s: State, s': State)
    requires Counted(s) && Shaped(s) && RegisterStep(s) == Ok(s') && s.register.Woken?
    ensures Counted(s')
  {
    hide Counted, CmdsIn, QueueOf;
    FieldsCounted(s, s');
  }

  lemma QuietCounts(s: State, s': State)
    requires Counted(s) && Shaped(s) && RegisterStep(s) == Ok(s') && s.register.Popped?
    ensures Counted(s')
  {
    hide Counted, CmdsIn, QueueOf;
    FieldsCounted(s, s');
  }

  lemma RingCounts(s: State, s': State)
    requires Counted(s) && Shaped(s) && RegisterStep(s) == Ok(s') && s.register.Stored?
    ensures Counted(s')
  {
    hide Counted, CmdsIn, Ring;
    RingSame(s.slots, s.register.id);
    FieldsCounted(s, s');
  }

  lemma RegisterCounts(s: State)
    requires Counted(s) && Shaped(s) && RegisterStep(s).Ok?
    ensures Counted(RegisterStep(s).s)
  {
    AwaitsAnswer(s);
    hide Counted, RegisterStep;
    var s' := RegisterStep(s).s;
    match s.register
    case Heard(_, _) => HoldCounts(s, s');
    case Holding(_, _) => FrontCounts(s, s');
    case Front(_, _, _) => StoreCounts(s, s');
    case Stored(_, _, _) => RingCounts(s, s');
    case Woken(_, _, _) => PopCounts(s, s');
    case Popped => QuietCounts(s, s');
    case Quiet =>
  }

  lemma AwaitsAnswer(s: State)
    requires Shaped(s)
    ensures s.register.Quiet? ==> RegisterStep(s).Blocked?
  {
  }

  lemma AnswerCounts(s: State, t: Target, data: int)
    requires Counted(s) && AnswerStep(s, t, data).Ok?
    ensures Counted(AnswerStep(s, t, data).s)
  {
    hide Counted, CmdsIn, Unslotted;
    ServerMoves(s, AnswerStep(s, t, data).s);
  }

  /** The command that gets a slot: it is the last one sent, and nobody has answered it. */
  lemma ChoosingFacts(targets: iset<Target>, s: State)
    requires Inv(targets, s) && s.server.Choosing?
    ensures s.cmd.xd && s.sent != [] && s.cmd.n == |s.sent| - 1 && s.sent[|s.sent| - 1] == s.cmd && s.cmd !in s.answers
    ensures s.sender.Some? && PcOf(s.clients, s.sender.value).Signalled? && s.cmd !in s.results
    ensures Unslotted(s.clients, s.sender, s.server, s.serverMut)
  {
    TurnFacts(targets, s);
    hide ClientsOk, StackOk, FlyingOk, ClaimsOk, TurnOk, RoutingOk, RegisterOk, AimedOk, WaitsOk, DataOk, HandlesOk;
  }

  lemma ChosenFree(targets: iset<Target>, s: State)
    requires Inv(targets, s) && s.server.Choosing? && InRange(s.freeIdx)
    ensures Shaped(s) && 0 <= s.freeList[s.freeIdx] < |s.slots| && s.slots[s.freeList[s.freeIdx]].Free?
  {
    hide ClientsOk, FlyingOk, ClaimsOk, TurnOk, RoutingOk, RegisterOk, AimedOk, WaitsOk, DataOk, HandlesOk, LinesOk,
         ResultsOk, DeliveriesOk, ServingOk;
  }

  /** A client that has given its slot back has an answer. */
  lemma PushedAnswered(targets: iset<Target>, s: State, c: nat)
    requires Inv(targets, s) && PcOf(s.clients, c).Pushed?
    ensures PcOf(s.clients, c).cmd in s.answers
  {
    ClientFacts(targets, s, c);
    hide Inv;
  }

  lemma PushedOthers(targets: iset<Target>, s: State)
    requires Inv(targets, s) && s.server.Choosing?
    ensures forall k: nat :: PcOf(s.clients, k).Pushed? ==> PcOf(s.clients, k).cmd != s.cmd
  {
    hide Inv;
    ChoosingFacts(targets, s);
    forall k: nat | PcOf(s.clients, k).Pushed? ensures PcOf(s.clients, k).cmd != s.cmd {
      PushedAnswered(targets, s, k);
    }
  }

  lemma ChosenState(s: State, h: int)
    requires Shaped(s) && s.server.Choosing? && AllocateStep(s).Ok?
    requires InRange(s.freeIdx) ==> h == s.freeList[s.freeIdx]
    ensures InRange(s.freeIdx)
    ensures 0 <= h < |s.slots| ==>
              AllocateStep(s).s == s.(server := Chosen(h), slots := s.slots[h := Alloc(s.cmd)], depth := s.depth - 1)
  {
  }

  lemma ChooseCounts(targets: iset<Target>, s: State)
    requires Inv(targets, s) && Counted(s) && Shaped(s) && s.server.Choosing? && AllocateStep(s).Ok?
    ensures Counted(AllocateStep(s).s)
  {
    hide Inv, Counted, AllocateStep, PcOf;
    var h := if InRange(s.freeIdx) then s.freeList[s.freeIdx] else 0;
    ChosenState(s, h);
    ChosenFree(targets, s);
    ChoosingFacts(targets, s);
    PushedOthers(targets, s);
    GiveCounts(s, AllocateStep(s).s, h);
  }

  /** The last command sent gets a slot: it was in none. */
  lemma GiveCounts(s: State, s': State, h: int)
    requires Counted(s) && 0 <= h < |s.slots| && s.slots[h].Free? && s'.slots == s.slots[h := Alloc(s.cmd)]
    requires s'.sent == s.sent && s'.results == s.results && s'.clients == s.clients && s'.sender == s.sender
    requires s.server.Choosing? && s.sender.Some? && PcOf(s.clients, s.sender.value).Signalled? && s'.server.Chosen?
    requires s.cmd.xd && s.sent != [] && s.cmd.n == |s.sent| - 1 && s.sent[|s.sent| - 1] == s.cmd && s.cmd !in s.results
    requires forall k: nat :: PcOf(s.clients, k).Pushed? ==> PcOf(s.clients, k).cmd != s.cmd
    ensures Counted(s')
  {
    var cmds, cmds' := CmdsIn(s.slots), CmdsIn(s'.slots);
    assert cmds' == cmds[h := Some(s.cmd)];
    hide CmdsIn;
  }

  /** Every step keeps the books. */
  lemma NextCounts(targets: iset<Target>, s: State, a: Action)
    requires Inv(targets, s) && Counted(s) && Shaped(s) && Next(s, a).Ok?
    ensures Counted(Next(s, a).s)
  {
    hide Inv, Counted, SendStep, SendingStep, GetStep, GiveUpStep, ClaimStep, AllocateStep, DeliverStep, AnswerStep,
         RegisterStep;
    match a
    case Send(c, target, xd) => SendCounts(targets, s, c, target, xd);
    case Get(c, cmd) =>
      GetIdle(s, c, cmd);
      NotSending(targets, s, c);
      GetCounts(s, c, cmd);
    case GiveUp(c) =>
      GiveUpIdle(s, c);
      NotSending(targets, s, c);
      GiveUpCounts(s, c);
    case Client(c) =>
      if Sending(PcOf(s.clients, c)) { SendingCounts(targets, s, c); } else { ClaimCounts(targets, s, c); }
    case Server =>
      if s.server.Choosing? {
        ChooseCounts(targets, s);
      } else if Allocating(s.server) {
        AllocateCounts(targets, s);
      } else {
        DeliverCounts(targets, s);
      }
    case Answer(t, data) => AnswerCounts(s, t, data);
    case Register => RegisterCounts(s);
  }

  lemma GetIdle(s: State, c: nat, cmd: Cmd)
    requires GetStep(s, c, cmd).Ok?
    ensures !Sending(PcOf(s.clients, c))
  {
  }

  lemma GiveUpIdle(s: State, c: nat)
    requires Shaped(s) && GiveUpStep(s, c).Ok?
    ensures !Sending(PcOf(s.clients, c))
  {
  }

  // ---------------------------------------------------------------- counting

  predicate AllDiffer(cmds: seq<Cmd>) { forall i, j :: 0 <= i < j < |cmds| ==> cmds[i] != cmds[j] }

  lemma {:induction false} AsMany(cmds: seq<Cmd>, all: set<Cmd>)
    requires AllDiffer(cmds) && forall i :: 0 <= i < |cmds| ==> cmds[i] in all
    ensures |cmds| <= |all|
  {
    if cmds != [] {
      var last := cmds[|cmds| - 1];
      AsMany(cmds[..|cmds| - 1], all - {last});
      assert |all - {last}| == |all| - 1;
    }
  }

  /** With no slot free and one more command to be given one, too many are outstanding. */
  lemma FullCount(targets: iset<Target>, s: State)
    requires Inv(targets, s) && Counted(s) && s.server.Choosing? && Shaped(s) && forall i :: InRange(i) ==>
        !s.slots[i].Free?
    ensures |Outstanding(s)| > SLOTS
  {
    hide Inv, CmdsIn, Unslotted;
    ChoosingFacts(targets, s);
    var all := TakenCmds(s.slots);
    FullSlots(CmdsIn(s.slots), all, s.sent, s.results, s.cmd);
    AsMany(all + [s.cmd], Outstanding(s));
  }

  lemma TakenCmds(slots: seq<Slot>) returns (all: seq<Cmd>)
    requires forall i :: 0 <= i < |slots| ==> !slots[i].Free?
    ensures |all| == |slots| == |CmdsIn(slots)| && forall i :: 0 <= i < |all| ==> CmdsIn(slots)[i] == Some(all[i])
  {
    all := seq(|slots|, i requires 0 <= i < |slots| => slots[i].cmd);
  }

  lemma FullSlots(cmds: seq<Option<Cmd>>, all: seq<Cmd>, sent: seq<Cmd>, results: map<Cmd, int>, cmd: Cmd)
    requires SlotsCounted(cmds, sent, results, true) && |all| == |cmds| && forall i :: 0 <= i < |all| ==>
        cmds[i] == Some(all[i])
    requires cmd.xd && sent != [] && cmd.n == |sent| - 1 && sent[|sent| - 1] == cmd && cmd !in results
    ensures AllDiffer(all + [cmd])
    ensures forall c :: c in all + [cmd] ==> c in sent && c.xd && c !in results
  {
    var more := all + [cmd];
    forall i, j | 0 <= i < j < |more| ensures more[i] != more[j] {
      if j < |all| { assert cmds[i] != cmds[j]; }
    }
    forall i | 0 <= i < |all| ensures all[i] in sent && all[i].xd && all[i] !in results {
      assert all[i] == sent[all[i].n];
    }
  }

  lemma FirstCounted()
    ensures Counted(Initial())
  {
    var cmds := CmdsIn(Initial().slots);
    assert forall i :: 0 <= i < |cmds| ==> cmds[i] == None;
  }

  lemma {:induction false} RunCounted(targets: iset<Target>, actions: seq<Action>)
    requires Separable(targets) && AllAllowed(targets, actions) && Run(actions).Ok?
    ensures Inv(targets, Run(actions).s) && Counted(Run(actions).s)
    decreases |actions|
  {
    hide Inv, Separable, Next, Counted, Initial;
    RunInv(targets, actions);
    if actions == [] {
      FirstCounted();
    } else {
      var before := actions[..|actions| - 1];
      RunCounted(targets, before);
      InvShaped(targets, Run(before).s);
      NextCounts(targets, Run(before).s, actions[|actions| - 1]);
    }
  }

  /** While at no point of a run more than 256 commands with a response are sent and not collected, the
      run does not fault. */
  lemma {:induction false} FewOutstanding(targets: iset<Target>, actions: seq<Action>)
    requires Separable(targets) && AllAllowed(targets, actions)
    requires forall n :: 0 <= n <= |actions| && Run(actions[..n]).Ok? ==> |Outstanding(Run(actions[..n]).s)| <= SLOTS
    ensures !Run(actions).Fault?
    decreases |actions|
  {
    hide Inv, Separable, Next, Counted, Outstanding, Initial;
    if actions != [] {
      var before := actions[..|actions| - 1];
      forall n | 0 <= n <= |before| ensures before[..n] == actions[..n] {}
      FewOutstanding(targets, before);
      if Run(before).Ok? {
        RunCounted(targets, before);
        var s := Run(before).s;
        assert actions[..|before|] == before;
        NextKeeps(targets, s, actions[|actions| - 1]);
        if Next(s, actions[|actions| - 1]).Fault? { FullCount(targets, s); }
      }
    }
  }
}
