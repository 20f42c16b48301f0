/** No command that asks for a response is lost: until an application has the response, its handle is with
    the sending client, on the shelf, or with the client that collects it. */
module ProtocolLedger {
  import opened CommandProtocol
  import opened ProtocolRuns

  /** Client `c` is sending `cmd` or collecting its response. */
  predicate At(clients: map<nat, ClientPc>, c: nat, cmd: Cmd) {
    var pc := PcOf(clients, c); pc != Idle && pc.cmd == cmd
  }

  ghost predicate Kept(s: State, cmd: Cmd) {
    cmd in s.handles || cmd in s.results || exists c: nat :: At(s.clients, c, cmd)
  }

  ghost predicate Accounted(s: State) { forall cmd :: cmd in s.sent && cmd.xd ==> Kept(s, cmd) }

  /** One client moves on; what it had to do with `cmd` it still has, or has put on the shelf or handed over. */
  ghost predicate Passes(s: State, s': State, c: nat) {
    && (forall d: nat :: d != c ==> PcOf(s'.clients, d) == PcOf(s.clients, d))
    && (forall cmd: Cmd :: cmd.xd && At(s.clients, c, cmd) ==>
          At(s'.clients, c, cmd) || cmd in s'.handles || cmd in s'.results)
    && (forall cmd :: cmd in s.handles ==> cmd in s'.handles || At(s'.clients, c, cmd))
    && (forall cmd :: cmd in s.results ==> cmd in s'.results)
    && (forall cmd :: cmd in s'.sent ==> cmd in s.sent || At(s'.clients, c, cmd))
  }

  lemma PassesKeeps(s: State, s': State, c: nat)
    requires Accounted(s) && Passes(s, s', c)
    ensures Accounted(s')
  {
    forall cmd | cmd in s'.sent && cmd.xd ensures Kept(s', cmd) {
      if !At(s'.clients, c, cmd) {
        assert Kept(s, cmd);
        if d: nat :| At(s.clients, d, cmd) { assert d != c ==> At(s'.clients, d, cmd); }
      }
    }
  }

  lemma SendPasses(s: State, c: nat, target: Target, xd: bool)
    requires SendStep(s, c, target, xd).Ok?
    ensures Passes(s, SendStep(s, c, target, xd).s, c)
  {
  }

  lemma LockedPasses(s: State, s': State, c: nat)
    requires Shaped(s) && SendingStep(s, c) == Ok(s') && PcOf(s.clients, c).Locked?
    ensures Passes(s, s', c)
  {
  }

  lemma WrittenPasses(s: State, s': State, c: nat)
    requires Shaped(s) && SendingStep(s, c) == Ok(s') && PcOf(s.clients, c).Written?
    ensures Passes(s, s', c)
  {
  }

  lemma SignalledPasses(s: State, s': State, c: nat)
    requires Shaped(s) && SendingStep(s, c) == Ok(s') && PcOf(s.clients, c).Signalled?
    ensures Passes(s, s', c)
  {
  }

  lemma TakenPasses(s: State, s': State, c: nat)
    requires Shaped(s) && SendingStep(s, c) == Ok(s') && PcOf(s.clients, c).Taken?
    ensures Passes(s, s', c)
  {
  }

  lemma GotPassesXd(s: State, s': State, c: nat)
    requires Shaped(s) && SendingStep(s, c) == Ok(s') && PcOf(s.clients, c).Got? && PcOf(s.clients, c).cmd.xd
    ensures Passes(s, s', c)
  {
  }

  lemma GotPassesPlain(s: State, s': State, c: nat)
    requires Shaped(s) && SendingStep(s, c) == Ok(s') && PcOf(s.clients, c).Got? && !PcOf(s.clients, c).cmd.xd
    ensures Passes(s, s', c)
  {
  }

  lemma GotPasses(s: State, s': State, c: nat)
    requires Shaped(s) && SendingStep(s, c) == Ok(s') && PcOf(s.clients, c).Got?
    ensures Passes(s, s', c)
  {
    hide SendingStep, Passes;
    if PcOf(s.clients, c).cmd.xd { GotPassesXd(s, s', c); } else { GotPassesPlain(s, s', c); }
  }

  lemma SendingPasses(s: State, c: nat)
    requires Shaped(s) && SendingStep(s, c).Ok? && Sending(PcOf(s.clients, c))
    ensures Passes(s, SendingStep(s, c).s, c)
  {
    hide SendingStep, Passes, Shaped;
    var s' := SendingStep(s, c).s;
    match PcOf(s.clients, c)
    case Locked(_) => LockedPasses(s, s', c);
    case Written(_) => WrittenPasses(s, s', c);
    case Signalled(_) => SignalledPasses(s, s', c);
    case Taken(_) => TakenPasses(s, s', c);
    case Got(_, _) => GotPasses(s, s', c);
    case _ =>
  }

  lemma GetPasses(s: State, c: nat, cmd: Cmd)
    requires GetStep(s, c, cmd).Ok?
    ensures Passes(s, GetStep(s, c, cmd).s, c)
  {
    hide Hand;
  }

  lemma GiveUpPasses(s: State, c: nat)
    requires Shaped(s) && GiveUpStep(s, c).Ok?
    ensures Passes(s, GiveUpStep(s, c).s, c)
  {
    hide Hand;
  }

  lemma WaitingPasses(s: State, s': State, c: nat)
    requires Shaped(s) && ClaimStep(s, c) == Ok(s') && PcOf(s.clients, c).Waiting?
    ensures Passes(s, s', c)
  {
  }

  lemma OwnedPasses(s: State, s': State, c: nat)
    requires Shaped(s) && ClaimStep(s, c) == Ok(s') && PcOf(s.clients, c).Owned?
    ensures Passes(s, s', c)
  {
  }

  lemma HasReadPasses(s: State, s': State, c: nat)
    requires Shaped(s) && ClaimStep(s, c) == Ok(s') && PcOf(s.clients, c).HasRead?
    ensures Passes(s, s', c)
  {
  }

  lemma FreeingPasses(s: State, s': State, c: nat)
    requires Shaped(s) && ClaimStep(s, c) == Ok(s') && PcOf(s.clients, c).Freeing?
    ensures Passes(s, s', c)
  {
  }

  lemma RaisedPasses(s: State, s': State, c: nat)
    requires Shaped(s) && ClaimStep(s, c) == Ok(s') && PcOf(s.clients, c).Raised?
    ensures Passes(s, s', c)
  {
  }

  lemma PushedPasses(s: State, s': State, c: nat)
    requires Shaped(s) && ClaimStep(s, c) == Ok(s') && PcOf(s.clients, c).Pushed?
    ensures Passes(s, s', c)
  {
  }

  lemma ClaimPasses(s: State, c: nat)
    requires Shaped(s) && ClaimStep(s, c).Ok?
    ensures Passes(s, ClaimStep(s, c).s, c)
  {
    ClaimMoves(s, c);
    hide ClaimStep, Passes, Shaped;
    var s' := ClaimStep(s, c).s;
    match PcOf(s.clients, c)
    case Waiting(_, _) => WaitingPasses(s, s', c);
    case Owned(_, _) => OwnedPasses(s, s', c);
    case HasRead(_, _, _) => HasReadPasses(s, s', c);
    case Freeing(_, _, _) => FreeingPasses(s, s', c);
    case Raised(_, _, _) => RaisedPasses(s, s', c);
    case Pushed(_, _) => PushedPasses(s, s', c);
    case _ =>
  }

  lemma ClaimMoves(s: State, c: nat)
    requires Shaped(s) && ClaimStep(s, c).Ok?
    ensures !Sending(PcOf(s.clients, c)) && !PcOf(s.clients, c).Idle?
  {
  }

  /** The other threads leave clients, handles and results alone. */
  predicate Apart(s: State, s': State) {
    s'.clients == s.clients && s'.handles == s.handles && s'.results == s.results && s'.sent == s.sent
  }

  lemma ApartKeeps(s: State, s': State)
    requires Accounted(s) && Apart(s, s')
    ensures Accounted(s')
  {
    forall cmd | cmd in s'.sent && cmd.xd ensures Kept(s', cmd) { assert Kept(s, cmd); }
  }

  lemma AsleepApart(s: State, s': State)
    requires Shaped(s) && AllocateStep(s) == Ok(s') && s.server.Asleep?
    ensures Apart(s, s')
  {
  }

  lemma AwakeApartXd(s: State, s': State)
    requires Shaped(s) && AllocateStep(s) == Ok(s') && s.server.Awake? && s.cmd.xd
    ensures Apart(s, s')
  {
  }

  lemma AwakeApartPlain(s: State, s': State)
    requires Shaped(s) && AllocateStep(s) == Ok(s') && s.server.Awake? && !s.cmd.xd
    ensures Apart(s, s')
  {
  }

  lemma AwakeApart(s: State, s': State)
    requires Shaped(s) && AllocateStep(s) == Ok(s') && s.server.Awake?
    ensures Apart(s, s')
  {
    hide AllocateStep, Apart;
    if s.cmd.xd { AwakeApartXd(s, s'); } else { AwakeApartPlain(s, s'); }
  }

  lemma ChoosingApart(s: State, s': State)
    requires Shaped(s) && AllocateStep(s) == Ok(s') && s.server.Choosing?
    ensures Apart(s, s')
  {
  }

  lemma ChosenApart(s: State, s': State)
    requires Shaped(s) && AllocateStep(s) == Ok(s') && s.server.Chosen?
    ensures Apart(s, s')
  {
  }

  lemma LoweredApart(s: State, s': State)
    requires Shaped(s) && AllocateStep(s) == Ok(s') && s.server.Lowered?
    ensures Apart(s, s')
  {
  }

  lemma AllocatedApart(s: State, s': State)
    requires Shaped(s) && AllocateStep(s) == Ok(s') && s.server.Allocated?
    ensures Apart(s, s')
  {
  }

  lemma AllocateApart(s: State)
    requires Shaped(s) && AllocateStep(s).Ok?
    ensures Apart(s, AllocateStep(s).s)
  {
    AllocateMoves(s);
    hide AllocateStep, Apart, Shaped;
    var s' := AllocateStep(s).s;
    match s.server
    case Asleep => AsleepApart(s, s');
    case Awake => AwakeApart(s, s');
    case Choosing => ChoosingApart(s, s');
    case Chosen(_) => ChosenApart(s, s');
    case Lowered(_) => LoweredApart(s, s');
    case Allocated(_) => AllocatedApart(s, s');
    case _ =>
  }

  lemma AllocateMoves(s: State)
    requires Shaped(s) && AllocateStep(s).Ok?
    ensures Allocating(s.server)
  {
  }

  lemma AnnouncedApart(s: State, s': State)
    requires Shaped(s) && DeliverStep(s) == Ok(s') && s.server.Announced?
    ensures Apart(s, s')
  {
  }

  lemma DeliveringApartXd(s: State, s': State)
    requires Shaped(s) && DeliverStep(s) == Ok(s') && s.server.Delivering? && s.cmd.xd
    ensures Apart(s, s')
  {
  }

  lemma DeliveringApartPlain(s: State, s': State)
    requires Shaped(s) && DeliverStep(s) == Ok(s') && s.server.Delivering? && !s.cmd.xd
    ensures Apart(s, s')
  {
  }

  lemma DeliveringApart(s: State, s': State)
    requires Shaped(s) && DeliverStep(s) == Ok(s') && s.server.Delivering?
    ensures Apart(s, s')
  {
    hide DeliverStep, Apart;
    if s.cmd.xd { DeliveringApartXd(s, s'); } else { DeliveringApartPlain(s, s'); }
  }

  lemma DeliveredApartXd(s: State, s': State)
    requires Shaped(s) && DeliverStep(s) == Ok(s') && s.server.Delivered? && s.cmd.xd
    ensures Apart(s, s')
  {
  }

  lemma DeliveredApartPlain(s: State, s': State)
    requires Shaped(s) && DeliverStep(s) == Ok(s') && s.server.Delivered? && !s.cmd.xd
    ensures Apart(s, s')
  {
  }

  lemma DeliveredApart(s: State, s': State)
    requires Shaped(s) && DeliverStep(s) == Ok(s') && s.server.Delivered?
    ensures Apart(s, s')
  {
    hide DeliverStep, Apart;
    if s.cmd.xd { DeliveredApartXd(s, s'); } else { DeliveredApartPlain(s, s'); }
  }

  lemma QueuedApart(s: State, s': State)
    requires Shaped(s) && DeliverStep(s) == Ok(s') && s.server.Queued?
    ensures Apart(s, s')
  {
  }

  lemma FinishingApart(s: State, s': State)
    requires Shaped(s) && DeliverStep(s) == Ok(s') && s.server.Finishing?
    ensures Apart(s, s')
  {
  }

  lemma DeliverApart(s: State)
    requires Shaped(s) && DeliverStep(s).Ok?
    ensures Apart(s, DeliverStep(s).s)
  {
    DeliverMoves(s);
    hide DeliverStep, Apart, Shaped;
    var s' := DeliverStep(s).s;
    match s.server
    case Announced(_) => AnnouncedApart(s, s');
    case Delivering(_) => DeliveringApart(s, s');
    case Delivered(_) => DeliveredApart(s, s');
    case Queued(_) => QueuedApart(s, s');
    case Finishing => FinishingApart(s, s');
    case _ =>
  }

  lemma DeliverMoves(s: State)
    requires Shaped(s) && DeliverStep(s).Ok?
    ensures !Allocating(s.server)
  {
  }

  lemma AnswerApart(s: State, t: Target, data: int)
    requires AnswerStep(s, t, data).Ok?
    ensures Apart(s, AnswerStep(s, t, data).s)
  {
  }

  lemma HeardApart(s: State, s': State)
    requires Shaped(s) && RegisterStep(s) == Ok(s') && s.register.Heard?
    ensures Apart(s, s')
  {
  }

  lemma HoldingApart(s: State, s': State)
    requires Shaped(s) && RegisterStep(s) == Ok(s') && s.register.Holding?
    ensures Apart(s, s')
  {
  }

  lemma FrontApart(s: State, s': State)
    requires Shaped(s) && RegisterStep(s) == Ok(s') && s.register.Front?
    ensures Apart(s, s')
  {
  }

  lemma StoredApart(s: State, s': State)
    requires Shaped(s) && RegisterStep(s) == Ok(s') && s.register.Stored?
    ensures Apart(s, s')
  {
  }

  lemma WokenApart(s: State, s': State)
    requires Shaped(s) && RegisterStep(s) == Ok(s') && s.register.Woken?
    ensures Apart(s, s')
  {
  }

  lemma PoppedApart(s: State, s': State)
    requires Shaped(s) && RegisterStep(s) == Ok(s') && s.register.Popped?
    ensures Apart(s, s')
  {
  }

  lemma RegisterApart(s: State)
    requires Shaped(s) && RegisterStep(s).Ok?
    ensures Apart(s, RegisterStep(s).s)
  {
    RegisterMoves(s);
    hide RegisterStep, Apart, Shaped;
    var s' := RegisterStep(s).s;
    match s.register
    case Heard(_, _) => HeardApart(s, s');
    case Holding(_, _) => HoldingApart(s, s');
    case Front(_, _, _) => FrontApart(s, s');
    case Stored(_, _, _) => StoredApart(s, s');
    case Woken(_, _, _) => WokenApart(s, s');
    case Popped => PoppedApart(s, s');
    case Quiet =>
  }

  lemma RegisterMoves(s: State)
    requires Shaped(s) && RegisterStep(s).Ok?
    ensures !s.register.Quiet?
  {
  }

  lemma NextAccounted(s: State, a: Action)
    requires Shaped(s) && Accounted(s) && Next(s, a).Ok?
    ensures Accounted(Next(s, a).s)
  {
    hide Accounted, Passes, Apart, SendStep, SendingStep, GetStep, GiveUpStep, ClaimStep, AllocateStep, DeliverStep,
         AnswerStep, RegisterStep, Shaped;
    var s' := Next(s, a).s;
    match a
    case Send(c, target, xd) => SendPasses(s, c, target, xd); PassesKeeps(s, s', c);
    case Get(c, cmd) => GetPasses(s, c, cmd); PassesKeeps(s, s', c);
    case GiveUp(c) => GiveUpPasses(s, c); PassesKeeps(s, s', c);
    case Client(c) =>
      if Sending(PcOf(s.clients, c)) { SendingPasses(s, c); } else { ClaimPasses(s, c); }
      PassesKeeps(s, s', c);
    case Server =>
      if Allocating(s.server) { AllocateApart(s); } else { DeliverApart(s); }
      ApartKeeps(s, s');
    case Answer(t, data) => AnswerApart(s, t, data); ApartKeeps(s, s');
    case Register => RegisterApart(s); ApartKeeps(s, s');
  }

  /** In every run each command sent that asks for a response is with a client that sends it or collects
      its response, its handle is on the shelf, or an application has the response. */
  lemma {:induction false} NothingLost(actions: seq<Action>)
    ensures Run(actions).Ok? ==> Accounted(Run(actions).s)
    decreases |actions|
  {
    hide Next, Shaped;
    if actions != [] {
      var r := Run(actions[..|actions| - 1]);
      NothingLost(actions[..|actions| - 1]);
      hide Accounted;
      if Run(actions).Ok? && Shaped(r.s) { NextAccounted(r.s, actions[|actions| - 1]); }
    }
  }
}
