/** Runs of the command protocol: any number of clients, the server and the response thread, in any
    interleaving. */
module ProtocolRuns {
  import opened CommandProtocol
  import opened ProtocolInvariant
  import opened ProtocolProofs
  import opened Options

  lemma SendingKeeps(targets: iset<Target>, s: State, c: nat)
    requires Inv(targets, s) && Sending(PcOf(s.clients, c))
    ensures !SendingStep(s, c).Fault?
    ensures SendingStep(s, c).Ok? ==> Inv(targets, SendingStep(s, c).s)
  {
    hide Inv;
    match PcOf(s.clients, c)
    case Locked(_) => WriteKeeps(targets, s, c, SendingStep(s, c).s);
    case Written(_) => SignalKeeps(targets, s, c);
    case Signalled(_) => if SendingStep(s, c).Ok? { TakeKeeps(targets, s, c, SendingStep(s, c).s); }
    case Taken(_) => ReadHandleKeeps(targets, s, c);
    case Got(cmd, _) =>
      SendDone(targets, s, c);
      if cmd.xd {
        SentKeeps(targets, s, c, SendingStep(s, c).s);
      } else {
        SentPlainKeeps(targets, s, c, SendingStep(s, c).s);
      }
  }

  lemma ClaimKeeps(targets: iset<Target>, s: State, c: nat)
    requires Inv(targets, s)
    ensures Shaped(s) && !ClaimStep(s, c).Fault?
    ensures ClaimStep(s, c).Ok? ==> Inv(targets, ClaimStep(s, c).s)
  {
    InvShaped(targets, s);
    ClientAt(s, c);
    hide Inv, ClientsOk;
    match PcOf(s.clients, c)
    case Waiting(_, _) => if ClaimStep(s, c).Ok? { OwnKeeps(targets, s, c, ClaimStep(s, c).s); }
    case Owned(_, _) => ClaimerMoves(targets, s, c, ClaimStep(s, c).s);
    case HasRead(_, _, _) => if ClaimStep(s, c).Ok? { ClaimerMoves(targets, s, c, ClaimStep(s, c).s); }
    case Freeing(_, _, _) => RaiseKeeps(targets, s, c, ClaimStep(s, c).s);
    case Raised(_, _, _) => PushKeeps(targets, s, c);
    case Pushed(_, _) => FreedKeeps(targets, s, c);
    case _ =>
  }

  lemma InvShaped(targets: iset<Target>, s: State)
    requires Inv(targets, s)
    ensures Shaped(s) && ClientsOk(s.clients, s.slots, s.answers, s.sender, s.holder)
  {
    hide ClientsOk;
  }

  lemma SendDone(targets: iset<Target>, s: State, c: nat)
    requires Inv(targets, s) && PcOf(s.clients, c).Got?
    ensures SendingStep(s, c).Ok?
  {
    ClientAt(s, c);
    hide StackOk, WaitsOk, FlyingOk, DataOk, HandlesOk, ClientsOk, ClaimsOk, ServingOk, DeliveriesOk, ResultsOk,
         RoutingOk, LinesOk;
  }

  lemma ServerKeeps(targets: iset<Target>, s: State)
    requires Inv(targets, s) && Separable(targets)
    ensures Shaped(s)
    ensures ServerStep(s).Fault? <==> s.server.Choosing? && forall i :: InRange(i) ==> !s.slots[i].Free?
    ensures ServerStep(s).Ok? ==> Inv(targets, ServerStep(s).s)
  {
    InvShaped(targets, s);
    hide Inv, Separable;
    match s.server
    case Asleep => if AllocateStep(s).Ok? { WakeKeeps(targets, s, AllocateStep(s).s); }
    case Awake =>
      if AllocateStep(s).Ok? {
        if s.cmd.xd { ReserveKeeps(targets, s, AllocateStep(s).s); } else { PlainKeeps(targets, s, AllocateStep(s).s); }
      }
    case Choosing =>
      AllocationFault(targets, s);
      if AllocateStep(s).Ok? { ChooseKeeps(targets, s, AllocateStep(s).s); }
    case Chosen(_) => LowerKeeps(targets, s, AllocateStep(s).s);
    case Lowered(_) =>
      FreeHeld(targets, s);
      LowerKeeps(targets, s, AllocateStep(s).s);
    case Allocated(_) => LowerKeeps(targets, s, AllocateStep(s).s);
    case Announced(_) => if DeliverStep(s).Ok? { EnterKeeps(targets, s, DeliverStep(s).s); }
    case Delivering(_) =>
      if s.cmd.xd {
        DeliverKeeps(targets, s, DeliverStep(s).s);
      } else {
        DeliverPlainKeeps(targets, s, DeliverStep(s).s);
      }
    case Delivered(_) =>
      if s.cmd.xd { QueueKeeps(targets, s, DeliverStep(s).s); } else { SkipQueueKeeps(targets, s, DeliverStep(s).s); }
    case Queued(_) => ReplyKeeps(targets, s);
    case Finishing => FinishKeeps(targets, s);
  }

  lemma FreeHeld(targets: iset<Target>, s: State)
    requires Inv(targets, s) && s.server.Lowered?
    ensures s.freeLock
  {
    hide StackOk, WaitsOk, FlyingOk, DataOk, HandlesOk, ClientsOk, ClaimsOk, ServingOk, DeliveriesOk, ResultsOk,
         RoutingOk, LinesOk, TurnOk;
  }

  lemma RegisterKeeps(targets: iset<Target>, s: State)
    requires Inv(targets, s) && Separable(targets)
    ensures Shaped(s) && !RegisterStep(s).Fault?
    ensures RegisterStep(s).Ok? ==> Inv(targets, RegisterStep(s).s)
  {
    InvShaped(targets, s);
    hide Inv, Separable;
    match s.register
    case Quiet =>
    case Heard(_, _) => if RegisterStep(s).Ok? { HoldKeeps(targets, s, RegisterStep(s).s); }
    case Holding(_, _) => FrontKeeps(targets, s);
    case Front(_, _, _) => StoreKeeps(targets, s);
    case Stored(_, _, _) => RingKeeps(targets, s);
    case Woken(_, _, _) => PopKeeps(targets, s);
    case Popped => QuietKeeps(targets, s);
  }

  /** Applications send only to `targets`. */
  predicate Allowed(targets: iset<Target>, a: Action) { a.Send? ==> a.target in targets }

  /** Every step keeps the invariant, and the only step that can go wrong is the allocation of a slot
      while all 256 are taken. */
  lemma NextKeeps(targets: iset<Target>, s: State, a: Action)
    requires Inv(targets, s) && Separable(targets) && Allowed(targets, a)
    ensures Shaped(s)
    ensures Next(s, a).Fault? <==> a.Server? && s.server.Choosing? && forall i :: InRange(i) ==> !s.slots[i].Free?
    ensures Next(s, a).Ok? ==> Inv(targets, Next(s, a).s)
  {
    InvShaped(targets, s);
    hide Inv, Separable, AllocateStep, DeliverStep, SendingStep, ClaimStep, RegisterStep, ClientsOk;
    match a
    case Send(c, target, xd) => if Next(s, a).Ok? { SendKeeps(targets, s, c, target, xd); }
    case Get(c, cmd) => if Next(s, a).Ok? { GetKeeps(targets, s, c, cmd, Next(s, a).s); }
    case GiveUp(c) =>
      GiveUpRange(targets, s, c);
      if Next(s, a).Ok? { GiveUpKeeps(targets, s, c, Next(s, a).s); }
    case Client(c) =>
      if Sending(PcOf(s.clients, c)) {
        SendingKeeps(targets, s, c);
      } else {
        ClaimKeeps(targets, s, c);
      }
    case Server => ServerKeeps(targets, s);
    case Answer(t, data) => if Next(s, a).Ok? { AnswerKeeps(targets, s, t, data, Next(s, a).s); }
    case Register => RegisterKeeps(targets, s);
  }

  lemma GiveUpRange(targets: iset<Target>, s: State, c: nat)
    requires Inv(targets, s)
    ensures Shaped(s) && !GiveUpStep(s, c).Fault?
  {
    InvShaped(targets, s);
    ClientAt(s, c);
    hide Inv, ClientsOk;
  }

  /** The outcome of a run: steps that would block cannot be taken. */
  function Run(actions: seq<Action>): Outcome {
    if actions == [] then Ok(Initial())
    else
      var r := Run(actions[..|actions| - 1]);
      if r.Ok? && Shaped(r.s) then Next(r.s, actions[|actions| - 1]) else r
  }

  ghost predicate AllAllowed(targets: iset<Target>, actions: seq<Action>) {
    forall i :: 0 <= i < |actions| ==> Allowed(targets, actions[i])
  }

  lemma {:induction false} RunInv(targets: iset<Target>, actions: seq<Action>)
    requires Separable(targets) && AllAllowed(targets, actions)
    ensures Run(actions).Ok? ==> Inv(targets, Run(actions).s)
    decreases |actions|
  {
    hide Inv, Separable, Next, Shaped;
    if actions == [] {
      InitialInv(targets);
    } else {
      RunInv(targets, actions[..|actions| - 1]);
      var r := Run(actions[..|actions| - 1]);
      if r.Ok? && Shaped(r.s) { NextKeeps(targets, r.s, actions[|actions| - 1]); }
    }
  }

  // ---------------------------------------------------------------- slot ownership

  /** Entries of the free stack: the index plus one, less the one just read off or not yet written. */
  function StackSize(s: State): int { Up(s.freeIdx) - if Midway(s.server, s.holder, s.clients) then 1 else 0 }

  ghost predicate OnStack(s: State, i: int) {
    exists p :: 0 <= p < StackSize(s) && p < |s.freeList| && s.freeList[p] == i
  }

  ghost predicate InQueue(s: State, i: int) { exists k :: i in Live(s.inFlight, s.register, k) }

  ghost predicate Answered(s: State, i: int) { 0 <= i < |s.wait| && !s.wait[i] }

  ghost predicate ClaimedBy(s: State, i: int, c: nat) { Claiming(PcOf(s.clients, c)) && PcOf(s.clients, c).h == i }

  ghost predicate BeingClaimed(s: State, i: int) { exists c: nat :: ClaimedBy(s, i, c) }

  lemma StackIff(targets: iset<Target>, s: State, i: int)
    requires Inv(targets, s) && InRange(i)
    ensures OnStack(s, i) <==> s.slots[i].Free?
  {
    hide WaitsOk, FlyingOk, DataOk, HandlesOk, ClientsOk, ClaimsOk, ServingOk, DeliveriesOk, ResultsOk, RoutingOk,
         LinesOk, TurnOk, RegisterOk, Midway;
    if s.slots[i].Free? { assert s.freeList[s.slots[i].pos] == i; }
  }

  lemma ServerIff(targets: iset<Target>, s: State, i: int)
    requires Inv(targets, s) && InRange(i)
    ensures ServerHas(s.server, i) <==> s.slots[i].Alloc?
  {
    hide WaitsOk, FlyingOk, DataOk, HandlesOk, ClientsOk, ClaimsOk, StackOk, DeliveriesOk, ResultsOk, RoutingOk,
         LinesOk, TurnOk, RegisterOk, Midway;
  }

  lemma QueueIff(targets: iset<Target>, s: State, i: int)
    requires Inv(targets, s) && InRange(i)
    ensures InQueue(s, i) <==> s.slots[i].Flying?
    ensures forall k :: i in Live(s.inFlight, s.register, k) ==>
        s.slots[i].Flying? && k == CommandKey(s.slots[i].cmd.target)
  {
    hide WaitsOk, StackOk, DataOk, HandlesOk, ClientsOk, ClaimsOk, ServingOk, DeliveriesOk, ResultsOk, RoutingOk,
         LinesOk, TurnOk, RegisterOk, Midway, Live, CommandKey;
  }

  lemma AnsweredIff(targets: iset<Target>, s: State, i: int)
    requires Inv(targets, s) && InRange(i)
    ensures Answered(s, i) <==> s.slots[i].Ready?
  {
    hide FlyingOk, StackOk, DataOk, HandlesOk, ClientsOk, ClaimsOk, ServingOk, DeliveriesOk, ResultsOk, RoutingOk,
         LinesOk, TurnOk, RegisterOk, Midway;
  }

  lemma ClaimedIff(targets: iset<Target>, s: State, i: int)
    requires Inv(targets, s) && InRange(i)
    ensures BeingClaimed(s, i) <==> s.slots[i].Claimed?
    ensures forall c, d :: ClaimedBy(s, i, c) && ClaimedBy(s, i, d) ==> c == d
  {
    hide FlyingOk, StackOk, DataOk, HandlesOk, WaitsOk, ServingOk, DeliveriesOk, ResultsOk, RoutingOk, LinesOk, TurnOk,
         RegisterOk, Midway;
    if s.slots[i].Claimed? { assert ClaimedBy(s, i, s.slots[i].c); }
    forall c | ClaimedBy(s, i, c) ensures s.slots[i] == Claimed(PcOf(s.clients, c).cmd, c) { ClientAt(s, c); }
  }

  /** One slot sits at one place of at most one queue. */
  lemma QueuedOnce(targets: iset<Target>, s: State, k: Key, p: int, q: int)
    requires Inv(targets, s) && Separable(targets)
    requires 0 <= p < q < |Live(s.inFlight, s.register, k)|
    ensures Live(s.inFlight, s.register, k)[p] != Live(s.inFlight, s.register, k)[q]
  {
    hide StackOk, DataOk, HandlesOk, ClientsOk, ClaimsOk, WaitsOk, ServingOk, ResultsOk, TurnOk, RegisterOk, Midway,
         Live, Line, CommandKey, Somes, CmdsOf;
    var live := Live(s.inFlight, s.register, k);
    var t := s.slots[live[p]].cmd.target;
    assert CommandKey(t) == k;
    assert RoutedAt(s.hardware, s.register, Arriving(s.server, s.cmd), s.slots, s.inFlight, t);
    assert Increasing(Line(s.hardware, s.register, t));
    OrderedSlots(s.slots, live, Line(s.hardware, s.register, t), p, q);
  }

  lemma OrderedSlots(slots: seq<Slot>, live: seq<int>, line: seq<Cmd>, p: int, q: int)
    requires CmdsOf(slots, live) <= Somes(line) && Increasing(line) && 0 <= p < q < |live|
    ensures live[p] != live[q]
  {
    assert CmdsOf(slots, live)[p] == Somes(line)[p] && CmdsOf(slots, live)[q] == Somes(line)[q];
    assert line[p].n < line[q].n;
  }

  predicate ExactlyOne(a: bool, b: bool, c: bool, d: bool, e: bool) {
    && (a || b || c || d || e)
    && !(a && b) && !(a && c) && !(a && d) && !(a && e) && !(b && c) && !(b && d) && !(b && e) && !(c && d) && !(c && e)
    && !(d && e)
  }

  /** In every reachable state each slot is in exactly one of five places: the free stack, the
      server's hands, one in-flight queue, answered with its wait lock open, or one claimer's hands. */
  lemma SlotOwnership(targets: iset<Target>, actions: seq<Action>, i: int)
    requires Separable(targets) && AllAllowed(targets, actions) && Run(actions).Ok? && InRange(i)
    ensures var s := Run(actions).s;
      ExactlyOne(OnStack(s, i), ServerHas(s.server, i), InQueue(s, i), Answered(s, i), BeingClaimed(s, i))
  {
    hide Run, Inv, Separable, OnStack, InQueue, Answered, BeingClaimed, ServerHas;
    var s := Run(actions).s;
    RunInv(targets, actions);
    InvShaped(targets, s);
    StackIff(targets, s, i);
    ServerIff(targets, s, i);
    QueueIff(targets, s, i);
    AnsweredIff(targets, s, i);
    ClaimedIff(targets, s, i);
  }

  // ---------------------------------------------------------------- routing

  /** Every `get` that returned gave the answer to the very command whose send gave the handle; every
      wait lock that is open guards the answer to the command of its slot; and the hardware has seen
      the sends in order, each once, but for the one underway. */
  lemma ResponseRouting(targets: iset<Target>, actions: seq<Action>)
    requires Separable(targets) && AllAllowed(targets, actions) && Run(actions).Ok?
    ensures var s := Run(actions).s;
      && (forall cmd :: cmd in s.results ==> cmd in s.answers && s.results[cmd] == s.answers[cmd])
      && (forall cmd :: cmd in s.handles ==> Carries(s.slots, s.handles[cmd], cmd, Shelf))
      && (forall i :: InRange(i) && Answered(s, i) ==>
            && i < |s.slots| && i < |s.responses| && s.slots[i].Ready?
            && s.slots[i].cmd in s.answers && s.responses[i].data == s.answers[s.slots[i].cmd])
      && s.delivered <= s.sent && |s.sent| <= |s.delivered| + 1
      && (forall i :: 0 <= i < |s.sent| ==> s.sent[i].n == i)
  {
    hide Run, Separable, StackOk, FlyingOk, ClientsOk, ClaimsOk, ServingOk, RoutingOk, LinesOk, TurnOk, RegisterOk,
         Midway, AimedOk;
    RunInv(targets, actions);
  }

  /** A run ends in a fault only by allocating a slot while all 256 are taken; in particular
      register_reponse always finds its command's slot in front of a queue, no mutex is unlocked
      twice, and the free list is never indexed outside. */
  lemma OnlyExhaustionFaults(targets: iset<Target>, actions: seq<Action>, a: Action)
    requires Separable(targets) && AllAllowed(targets, actions) && Allowed(targets, a) && Run(actions).Ok?
    ensures var s := Run(actions).s;
      && Shaped(s)
      && (Next(s, a).Fault? <==> a.Server? && s.server.Choosing? && forall i :: InRange(i) ==> !OnStack(s, i))
  {
    hide Run, Inv, Separable, OnStack, Next;
    var s := Run(actions).s;
    RunInv(targets, actions);
    NextKeeps(targets, s, a);
    forall i | InRange(i) ensures OnStack(s, i) <==> s.slots[i].Free? { StackIff(targets, s, i); }
  }

  // ---------------------------------------------------------------- progress

  /** Some thread can move whenever a send is under way: the sender, the server, the client that
      holds the free list, or the response thread. */
  lemma SendProgress(targets: iset<Target>, s: State)
    requires Inv(targets, s) && s.sender.Some?
    ensures Shaped(s)
    ensures !Next(s, Client(s.sender.value)).Blocked? || !Next(s, Server).Blocked? || !Next(s, Register).Blocked?
         || (s.holder.ClientHolds? && !Next(s, Client(s.holder.c)).Blocked?)
  {
    hide StackOk, FlyingOk, ClaimsOk, ServingOk, RoutingOk, LinesOk, RegisterOk, AimedOk, WaitsOk, DataOk, HandlesOk,
         ResultsOk, DeliveriesOk;
    ClientAt(s, s.sender.value);
    if s.holder.ClientHolds? { ClientAt(s, s.holder.c); }
  }

  /** A `get` waits only for the hardware or for the response thread: its command is unanswered, or
      its answer is being registered. */
  lemma GetWaits(targets: iset<Target>, s: State, c: nat)
    requires Inv(targets, s) && PcOf(s.clients, c).Waiting?
    ensures Shaped(s) && InRange(PcOf(s.clients, c).h)
    ensures s.wait[PcOf(s.clients, c).h] ==>
      var cmd := PcOf(s.clients, c).cmd; cmd in Line(s.hardware, s.register, cmd.target)
  {
    hide StackOk, ClaimsOk, ServingOk, LinesOk, RegisterOk, DataOk, HandlesOk, ResultsOk, DeliveriesOk, Midway, Live,
         Line, Somes, CmdsOf, CommandKey;
    ClientAt(s, c);
    var pc := PcOf(s.clients, c);
    if s.wait[pc.h] {
      var t := pc.cmd.target;
      assert RoutedAt(s.hardware, s.register, Arriving(s.server, s.cmd), s.slots, s.inFlight, t);
      InLine(s.slots, Live(s.inFlight, s.register, CommandKey(t)), Line(s.hardware, s.register, t), pc.h, pc.cmd);
    }
  }

  lemma InLine(slots: seq<Slot>, live: seq<int>, line: seq<Cmd>, i: int, cmd: Cmd)
    requires CmdsOf(slots, live) <= Somes(line) && i in live && CmdOf(slots, i) == Some(cmd)
    ensures cmd in line
  {
    var p :| 0 <= p < |live| && live[p] == i;
    assert CmdsOf(slots, live)[p] == Somes(line)[p];
  }
}
