/** What the control machine does on the bus, in every run and for any behaviour of the hardware. */
module AxiLiteProofs {
  import opened AxiLite
  import opened Options

  // ---------------------------------------------------------------- the polling loop as an acceptor

  /** The command side of the bus, as the polling loop for real hardware drives it: poll CMD_READY
      until it reads non-zero, write a word to CMD_BITS, write 1 to CMD_VALID, repeat. `words` are
      the words handed over so far. */
  datatype Polling = Off | Poll(words: seq<int>, ready: bool) | Half(words: seq<int>)

  function PollEvent(p: Polling, e: Event): Polling {
    match e
    case Rd(CmdReady, d) => if p.Poll? then Poll(p.words, d != 0) else Off
    case Wr(CmdBits, w) => if p.Poll? && p.ready then Half(p.words + [w]) else Off
    case Wr(CmdValid, v) => if p.Half? && v == 1 then Poll(p.words, false) else Off
    case Wr(CmdReady, _) => Off
    case Unwritten(r) => if r in {CmdBits, CmdValid, CmdReady} then Off else p
    case Stray => Off
    case _ => p
  }

  function PollTrace(trace: seq<Event>): Polling {
    if trace == [] then Poll([], false) else PollEvent(PollTrace(trace[..|trace| - 1]), trace[|trace| - 1])
  }

  /** The response side: poll RESP_VALID until it reads non-zero, read RESP_BITS, acknowledge on
      RESP_READY, repeat. `words` are the words read so far. */
  datatype Collecting = Lost | Watch(words: seq<int>, valid: bool) | Acknowledge(words: seq<int>)

  function CollectEvent(c: Collecting, e: Event): Collecting {
    match e
    case Rd(RespValid, d) => if c.Watch? then Watch(c.words, d != 0) else Lost
    case Rd(RespBits, d) => if c.Watch? && c.valid then Acknowledge(c.words + [d]) else Lost
    case Wr(RespReady, v) => if c.Acknowledge? && v == 1 then Watch(c.words, false) else Lost
    case Unwritten(RespReady) => if c.Acknowledge? then Watch(c.words, false) else Lost
    case Stray => Lost
    case _ => c
  }

  function CollectTrace(trace: seq<Event>): Collecting {
    if trace == [] then Watch([], false) else CollectEvent(CollectTrace(trace[..|trace| - 1]), trace[|trace| - 1])
  }

  // ---------------------------------------------------------------- the invariant

  function AllWords(cs: seq<Command>): seq<int> {
    if cs == [] then [] else AllWords(cs[..|cs| - 1]) + cs[|cs| - 1].words
  }

  function Flat(rs: seq<seq<int>>): seq<int> {
    if rs == [] then [] else Flat(rs[..|rs| - 1]) + rs[|rs| - 1]
  }

  /** At most one machine is off idle, the bus is marked occupied for all but one of the states off
      idle, and free when all are idle. */
  predicate Exclusive(s: Control) {
    && (s.cmd != CmdInactive ==> s.rsp == RespInactive && Idle(s.update) && s.occupied)
    && (s.rsp != RespInactive ==> Idle(s.update) && s.occupied)
    && (!Idle(s.update) && s.update != PollCmdWait ==> s.occupied)
    && (s.cmd == CmdInactive && s.rsp == RespInactive && Idle(s.update) ==> !s.occupied)
  }

  function PendingAw(s: Control): Option<Reg> {
    if s.cmd in {BitsDat, BitsB} then Some(CmdBits)
    else if s.cmd in {ValidDat, ValidB} then Some(CmdValid)
    else if s.rsp in {RespReadyWrite, RespReadyWriteB} then Some(RespReady)
    else None
  }

  function PendingW(s: Control): Option<int>
    requires Bounded(s)
  {
    if s.cmd == BitsB then Some(s.cmdbuf[s.progress])
    else if s.cmd == ValidB || s.rsp == RespReadyWriteB then Some(1)
    else None
  }

  function PendingAr(s: Control): Option<Reg> {
    if s.cmd == RecheckReadyDat || s.update == PollCmdWait then Some(CmdReady)
    else if s.rsp == RespBitsRead then Some(RespBits)
    else if s.rsp == RecheckValidRead || s.update == PollRespWait then Some(RespValid)
    else None
  }

  /** The words of the commands taken so far that have been handed over. */
  function Handed(s: Control): seq<int>
    requires Bounded(s)
  {
    if s.cmd == CmdInactive || s.started == [] then AllWords(s.started)
    else AllWords(s.started[..|s.started| - 1]) + s.cmdbuf[..s.progress]
  }

  function PollExpected(s: Control): Polling
    requires Bounded(s)
  {
    if s.cmd == CmdInactive then Poll(Handed(s), s.readyForCommand)
    else if s.cmd in {BitsAddr, BitsDat, BitsB} then Poll(Handed(s), true)
    else if s.cmd in {ValidAddr, ValidDat, ValidB} then Half(Handed(s) + [s.cmdbuf[s.progress]])
    else Poll(Handed(s), false)
  }

  function Collected(s: Control): seq<int>
    requires Bounded(s)
  {
    if s.rsp == RespInactive then Flat(s.registered) else Flat(s.registered) + s.resbuf[..s.got]
  }

  function CollectExpected(s: Control): Collecting
    requires Bounded(s)
  {
    if s.rsp in {RespBitsAddr, RespBitsRead} then Watch(Collected(s), true)
    else if s.rsp in {RespReadyAddr, RespReadyWrite, RespReadyWriteB} then Acknowledge(Collected(s))
    else Watch(Collected(s), false)
  }

  ghost predicate Inv(s: Control, m: Monitor) {
    && Bounded(s) && Exclusive(s)
    && (s.cmd != CmdInactive ==> s.started != [] && s.started[|s.started| - 1].words == s.cmdbuf)
    && (s.cmd in {BitsDat, BitsB, ValidAddr, ValidDat, ValidB, RecheckReadyAddr, RecheckReadyDat} ==>
          !s.readyForCommand)
    && m.aw == PendingAw(s) && m.w == PendingW(s) && m.ar == PendingAr(s)
    && PollTrace(m.trace) == PollExpected(s)
    && CollectTrace(m.trace) == CollectExpected(s)
  }

  lemma InitialInv()
    ensures Inv(Initial(), Monitor(None, None, None, []))
  {
  }

  lemma PollSnoc(trace: seq<Event>, e: Event)
    ensures PollTrace(trace + [e]) == PollEvent(PollTrace(trace), e)
    ensures CollectTrace(trace + [e]) == CollectEvent(CollectTrace(trace), e)
  {
    assert (trace + [e])[..|trace|] == trace;
  }

  lemma BitsAddressTick(s: Control, m: Monitor, i: Inputs)
    requires Inv(s, m) && Packed(i) && s.cmd == BitsAddr
    ensures Inv(Tick(s, i), Observe(m, Tick(s, i).wires, i))
  {
    hide PollTrace, CollectTrace, AllWords, Flat, RespStep;
    RespIdle(i);
  }

  lemma ValidAddressTick(s: Control, m: Monitor, i: Inputs)
    requires Inv(s, m) && Packed(i) && s.cmd == ValidAddr
    ensures Inv(Tick(s, i), Observe(m, Tick(s, i).wires, i))
  {
    hide PollTrace, CollectTrace, AllWords, Flat, RespStep;
    RespIdle(i);
  }

  lemma RecheckAddressTick(s: Control, m: Monitor, i: Inputs)
    requires Inv(s, m) && Packed(i) && s.cmd == RecheckReadyAddr
    ensures Inv(Tick(s, i), Observe(m, Tick(s, i).wires, i))
  {
    hide PollTrace, CollectTrace, AllWords, Flat, RespStep;
    RespIdle(i);
  }

  lemma AddressTick(s: Control, m: Monitor, i: Inputs)
    requires Inv(s, m) && Packed(i) && s.cmd in {BitsAddr, ValidAddr, RecheckReadyAddr}
    ensures Inv(Tick(s, i), Observe(m, Tick(s, i).wires, i))
  {
    hide Inv, Tick, Observe, Packed;
    match s.cmd
    case BitsAddr => BitsAddressTick(s, m, i);
    case ValidAddr => ValidAddressTick(s, m, i);
    case _ => RecheckAddressTick(s, m, i);
  }

  /** An inactive response machine does nothing. */
  lemma RespIdle(i: Inputs)
    ensures forall s: Control :: Bounded(s) && s.rsp == RespInactive ==> RespStep(s, i) == s
  {
  }

  lemma DataTick(s: Control, m: Monitor, i: Inputs)
    requires Inv(s, m) && Packed(i) && s.cmd in {BitsDat, ValidDat}
    ensures Inv(Tick(s, i), Observe(m, Tick(s, i).wires, i))
  {
    hide PollTrace, CollectTrace, AllWords, Flat, RespStep;
    RespIdle(i);
  }

  lemma WaitTick(s: Control, m: Monitor, i: Inputs)
    requires Inv(s, m) && Packed(i) && s.cmd in {BitsB, ValidB} && !i.bValid
    ensures Inv(Tick(s, i), Observe(m, Tick(s, i).wires, i))
  {
    hide PollTrace, CollectTrace, AllWords, Flat;
  }

  lemma BitsDoneTick(s: Control, m: Monitor, i: Inputs)
    requires Inv(s, m) && Packed(i) && s.cmd == BitsB && i.bValid
    ensures Inv(Tick(s, i), Observe(m, Tick(s, i).wires, i))
  {
    hide PollTrace, CollectTrace, AllWords, Flat;
    PollSnoc(m.trace, Wr(CmdBits, s.cmdbuf[s.progress]));
  }

  lemma Append(a: seq<int>, b: seq<int>, n: nat)
    requires n < |b|
    ensures a + b[..n] + [b[n]] == a + b[..n + 1]
  {
  }

  /** The last word of a command completes the words of all commands taken. */
  lemma HandedAll(cs: seq<Command>, buf: seq<int>)
    requires cs != [] && cs[|cs| - 1].words == buf && |buf| == CMD_WORDS
    ensures AllWords(cs[..|cs| - 1]) + buf[..CMD_WORDS] == AllWords(cs)
  {
    assert buf[..CMD_WORDS] == buf;
  }

  lemma ValidDone(s: Control, i: Inputs)
    requires Bounded(s) && Packed(i) && Exclusive(s) && s.cmd == ValidB && i.bValid && s.progress + 1 < CMD_WORDS
    ensures Tick(s, i) == s.(cmds := s.cmds + i.arrived, wires := QUIET.(bReady := true), cmd := RecheckReadyAddr,
                             progress := s.progress + 1, counter := s.counter + 1)
  {
  }

  lemma ValidDoneTick(s: Control, m: Monitor, i: Inputs)
    requires Inv(s, m) && Packed(i) && s.cmd == ValidB && i.bValid && s.progress + 1 < CMD_WORDS
    ensures Inv(Tick(s, i), Observe(m, Tick(s, i).wires, i))
  {
    hide PollTrace, CollectTrace, AllWords, Flat, Tick;
    ValidDone(s, i);
    PollSnoc(m.trace, Wr(CmdValid, 1));
    Append(AllWords(s.started[..|s.started| - 1]), s.cmdbuf, s.progress);
  }

  lemma LastDoneTick(s: Control, m: Monitor, i: Inputs)
    requires Inv(s, m) && Packed(i) && s.cmd == ValidB && i.bValid && s.progress + 1 == CMD_WORDS
    ensures Inv(Tick(s, i), Observe(m, Tick(s, i).wires, i))
  {
    hide PollTrace, CollectTrace, AllWords, Flat;
    PollSnoc(m.trace, Wr(CmdValid, 1));
    Append(AllWords(s.started[..|s.started| - 1]), s.cmdbuf, s.progress);
    HandedAll(s.started, s.cmdbuf);
  }

  lemma RecheckTick(s: Control, m: Monitor, i: Inputs)
    requires Inv(s, m) && Packed(i) && s.cmd == RecheckReadyDat
    ensures Inv(Tick(s, i), Observe(m, Tick(s, i).wires, i))
  {
    hide PollTrace, CollectTrace, AllWords, Flat;
    PollSnoc(m.trace, Rd(CmdReady, i.rData));
  }

  /** A command is taken on a free bus. */
  predicate Takes(s: Control, i: Inputs) { s.readyForCommand && !s.occupied && s.cmds + i.arrived != [] }

  lemma TakingTick(s: Control, m: Monitor, i: Inputs)
    requires Inv(s, m) && Packed(i) && s.cmd == CmdInactive && s.rsp == RespInactive && Idle(s.update) && Takes(s, i)
    ensures Inv(Tick(s, i), Observe(m, Tick(s, i).wires, i))
  {
    hide PollTrace, CollectTrace, AllWords, Flat;
    var cmds := s.cmds + i.arrived;
    assert (s.started + [cmds[0]])[..|s.started|] == s.started;
    assert AllWords(s.started) + cmds[0].words[..0] == AllWords(s.started);
  }

  lemma RestingTick(s: Control, m: Monitor, i: Inputs)
    requires Inv(s, m) && Packed(i) && s.cmd == CmdInactive && s.rsp == RespInactive && Idle(s.update) && !Takes(s, i)
    ensures Inv(Tick(s, i), Observe(m, Tick(s, i).wires, i))
  {
    hide PollTrace, CollectTrace, AllWords, Flat;
  }

  lemma IdleTick(s: Control, m: Monitor, i: Inputs)
    requires Inv(s, m) && Packed(i) && s.cmd == CmdInactive && s.rsp == RespInactive && Idle(s.update)
    ensures Inv(Tick(s, i), Observe(m, Tick(s, i).wires, i))
  {
    hide Inv, Tick, Observe, Takes, Packed;
    if Takes(s, i) { TakingTick(s, m, i); } else { RestingTick(s, m, i); }
  }

  lemma PollTick(s: Control, m: Monitor, i: Inputs)
    requires Inv(s, m) && Packed(i) && s.update in {PollCmdAddr, PollRespAddr, PollCmdWait}
    ensures Inv(Tick(s, i), Observe(m, Tick(s, i).wires, i))
  {
    hide PollTrace, CollectTrace, AllWords, Flat;
    PollSnoc(m.trace, Rd(CmdReady, i.rData));
  }

  lemma FoundTick(s: Control, m: Monitor, i: Inputs)
    requires Inv(s, m) && Packed(i) && s.update == PollRespWait
    ensures Inv(Tick(s, i), Observe(m, Tick(s, i).wires, i))
  {
    hide PollTrace, CollectTrace, AllWords, Flat;
    PollSnoc(m.trace, Rd(RespValid, i.rData));
    assert Flat(s.registered) + s.resbuf[..0] == Flat(s.registered);
  }

  lemma RespAddressTick(s: Control, m: Monitor, i: Inputs)
    requires Inv(s, m) && Packed(i) && s.rsp in {RespBitsAddr, RespReadyAddr, RecheckValidAddr}
    ensures Inv(Tick(s, i), Observe(m, Tick(s, i).wires, i))
  {
    hide PollTrace, CollectTrace, AllWords, Flat;
  }

  lemma RespReadTick(s: Control, m: Monitor, i: Inputs)
    requires Inv(s, m) && Packed(i) && s.rsp == RespBitsRead
    ensures Inv(Tick(s, i), Observe(m, Tick(s, i).wires, i))
  {
    hide PollTrace, CollectTrace, AllWords, Flat;
    PollSnoc(m.trace, Rd(RespBits, i.rData));
    assert s.resbuf[s.got := i.rData][..s.got + 1] == s.resbuf[..s.got] + [i.rData];
  }

  lemma RecheckValidTick(s: Control, m: Monitor, i: Inputs)
    requires Inv(s, m) && Packed(i) && s.rsp == RecheckValidRead
    ensures Inv(Tick(s, i), Observe(m, Tick(s, i).wires, i))
  {
    hide PollTrace, CollectTrace, AllWords, Flat;
    PollSnoc(m.trace, Rd(RespValid, i.rData));
  }

  lemma FlatSnoc(rs: seq<seq<int>>, r: seq<int>)
    ensures Flat(rs + [r]) == Flat(rs) + r
  {
    assert (rs + [r])[..|rs|] == rs;
  }

  lemma AcknowledgeTick(s: Control, m: Monitor, i: Inputs)
    requires Inv(s, m) && Packed(i) && s.rsp == RespReadyWriteB
    ensures Inv(Tick(s, i), Observe(m, Tick(s, i).wires, i))
  {
    hide PollTrace, CollectTrace, AllWords, Flat;
    PollSnoc(m.trace, Wr(RespReady, 1));
    FlatSnoc(s.registered, s.resbuf);
    assert s.resbuf[..RESP_WORDS] == s.resbuf;
  }

  /** Without a response the write state only offers its data. */
  lemma OfferTick(s: Control, m: Monitor, i: Inputs)
    requires Inv(s, m) && Packed(i) && s.rsp == RespReadyWrite && !i.bValid
    ensures Inv(Tick(s, i), Observe(m, Tick(s, i).wires, i))
  {
    hide PollTrace, CollectTrace, AllWords, Flat;
  }

  /** With a response the write state is left in the same tick, whether or not its data passed. */
  lemma AnsweredTick(s: Control, m: Monitor, i: Inputs)
    requires Inv(s, m) && Packed(i) && s.rsp == RespReadyWrite && i.bValid && i.wReady
    ensures Inv(Tick(s, i), Observe(m, Tick(s, i).wires, i))
  {
    hide PollTrace, CollectTrace, AllWords, Flat;
    PollSnoc(m.trace, Wr(RespReady, 1));
    FlatSnoc(s.registered, s.resbuf);
    assert s.resbuf[..RESP_WORDS] == s.resbuf;
  }

  lemma UnwrittenTick(s: Control, m: Monitor, i: Inputs)
    requires Inv(s, m) && Packed(i) && s.rsp == RespReadyWrite && i.bValid && !i.wReady
    ensures Inv(Tick(s, i), Observe(m, Tick(s, i).wires, i))
  {
    hide PollTrace, CollectTrace, AllWords, Flat;
    PollSnoc(m.trace, Unwritten(RespReady));
    FlatSnoc(s.registered, s.resbuf);
    assert s.resbuf[..RESP_WORDS] == s.resbuf;
  }

  lemma EarlyTick(s: Control, m: Monitor, i: Inputs)
    requires Inv(s, m) && Packed(i) && s.rsp == RespReadyWrite && i.bValid
    ensures Inv(Tick(s, i), Observe(m, Tick(s, i).wires, i))
  {
    hide Inv, Tick, Observe, Packed;
    if i.wReady { AnsweredTick(s, m, i); } else { UnwrittenTick(s, m, i); }
  }

  lemma TickInv(s: Control, m: Monitor, i: Inputs)
    requires Inv(s, m) && Packed(i)
    ensures Inv(Tick(s, i), Observe(m, Tick(s, i).wires, i))
  {
    assert Exclusive(s);
    hide Inv, Tick, Observe;
    match s.cmd
    case BitsB => if i.bValid { BitsDoneTick(s, m, i); } else { WaitTick(s, m, i); }
    case ValidB =>
      if !i.bValid { WaitTick(s, m, i); }
      else if s.progress + 1 == CMD_WORDS { LastDoneTick(s, m, i); }
      else { ValidDoneTick(s, m, i); }
    case RecheckReadyDat => RecheckTick(s, m, i);
    case BitsDat => DataTick(s, m, i);
    case ValidDat => DataTick(s, m, i);
    case CmdInactive =>
      if !Idle(s.update) {
        if s.update == PollRespWait { FoundTick(s, m, i); } else { PollTick(s, m, i); }
      } else {
        match s.rsp
        case RespInactive => IdleTick(s, m, i);
        case RespBitsRead => RespReadTick(s, m, i);
        case RecheckValidRead => RecheckValidTick(s, m, i);
        case RespReadyWrite => if i.bValid { EarlyTick(s, m, i); } else { OfferTick(s, m, i); }
        case RespReadyWriteB => AcknowledgeTick(s, m, i);
        case _ => RespAddressTick(s, m, i);
      }
    case _ => AddressTick(s, m, i);
  }

  // ---------------------------------------------------------------- runs

  datatype Bench = Bench(s: Control, m: Monitor)

  /** The machine and the monitor after a run with the given inputs, tick by tick. */
  ghost function Run(inputs: seq<Inputs>): Bench {
    if inputs == [] then Bench(Initial(), Monitor(None, None, None, []))
    else
      var b := Run(inputs[..|inputs| - 1]);
      var i := inputs[|inputs| - 1];
      if Bounded(b.s) && Packed(i) then var s := Tick(b.s, i); Bench(s, Observe(b.m, s.wires, i)) else b
  }

  lemma {:induction false} RunInv(inputs: seq<Inputs>)
    requires forall k :: 0 <= k < |inputs| ==> Packed(inputs[k])
    ensures Inv(Run(inputs).s, Run(inputs).m)
    decreases |inputs|
  {
    if inputs == [] {
      InitialInv();
    } else {
      var b := Run(inputs[..|inputs| - 1]);
      RunInv(inputs[..|inputs| - 1]);
      assert Bounded(b.s);
      hide Inv, Tick, Observe;
      TickInv(b.s, b.m, inputs[|inputs| - 1]);
    }
  }

  /** Number of machines off idle. */
  function Active(s: Control): nat {
    (if s.cmd != CmdInactive then 1 else 0) + (if s.rsp != RespInactive then 1 else 0) + if Idle(s.update) then 0 else 1
  }

  function Driven(w: Wires): nat {
    (if w.aw.Some? then 1 else 0) + (if w.w.Some? then 1 else 0) + if w.ar.Some? then 1 else 0
  }

  lemma CommandDrives(s: Control, i: Inputs)
    requires Bounded(s)
    ensures var r := CommandStep(s, i);
      && r.rsp == s.rsp && r.update == s.update
      && Driven(r.wires) <= Driven(s.wires) + if s.cmd == CmdInactive then 0 else 1
  {
    hide Bounded, TakeCommand, WriteBits, WriteValid, RecheckReady;
    match s.cmd
    case BitsAddr | BitsDat | BitsB => BitsDrive(s, i);
    case ValidAddr | ValidDat | ValidB => ValidDrive(s, i);
    case RecheckReadyAddr | RecheckReadyDat => RecheckDrive(s, i);
    case CmdInactive => TakeDrive(s);
  }

  /** One more channel at most, and the other machines untouched. */
  predicate DrivesOne(s: Control, r: Control, more: nat) {
    r.rsp == s.rsp && r.update == s.update && Driven(r.wires) <= Driven(s.wires) + more
  }

  lemma BitsDrive(s: Control, i: Inputs)
    requires Bounded(s) && s.cmd in {BitsAddr, BitsDat, BitsB}
    ensures DrivesOne(s, WriteBits(s, i), 1)
  {
    hide Bounded;
  }

  lemma ValidDrive(s: Control, i: Inputs)
    requires Bounded(s) && s.cmd in {ValidAddr, ValidDat, ValidB}
    ensures DrivesOne(s, WriteValid(s, i), 1)
  {
    hide Bounded;
  }

  lemma RecheckDrive(s: Control, i: Inputs)
    requires Bounded(s) && s.cmd in {RecheckReadyAddr, RecheckReadyDat}
    ensures DrivesOne(s, RecheckReady(s, i), 1)
  {
    hide Bounded;
  }

  lemma TakeDrive(s: Control)
    requires Bounded(s)
    ensures DrivesOne(s, TakeCommand(s), 0)
  {
    hide Bounded;
  }

  lemma RespDrives(s: Control, i: Inputs)
    requires Bounded(s)
    ensures var r := RespStep(s, i);
      r.update == s.update && Driven(r.wires) <= Driven(s.wires) + if s.rsp == RespInactive then 0 else 1
  {
    hide ResponseStep;
    if s.rsp == RespReadyWrite {
      ResponseDrives(OfferReady(s, i), i);
    } else if s.rsp == RespReadyWriteB {
      ResponseDrives(s, i);
    }
  }

  lemma ResponseDrives(s: Control, i: Inputs)
    requires Bounded(s) && s.rsp in {RespReadyWrite, RespReadyWriteB}
    ensures var r := ResponseStep(s, i); r.update == s.update && Driven(r.wires) == Driven(s.wires)
  {
  }

  lemma UpdateDrives(s: Control, i: Inputs)
    requires Bounded(s)
    ensures Driven(UpdateStep(s, i).wires) <= Driven(s.wires) + if Idle(s.update) then 0 else 1
  {
    hide Bounded, StartPoll, PollResponse, PollReady;
    match s.update
    case IdleResp => StartDrives(s, PollRespAddr);
    case IdleCmd => StartDrives(s, PollCmdAddr);
    case PollRespAddr | PollRespWait => PollRespDrives(s, i);
    case PollCmdAddr | PollCmdWait => PollCmdDrives(s, i);
  }

  lemma StartDrives(s: Control, poll: UpdateState)
    requires Bounded(s)
    ensures StartPoll(s, poll).wires == s.wires
  {
    hide Bounded;
  }

  lemma PollRespDrives(s: Control, i: Inputs)
    requires Bounded(s) && s.update in {PollRespAddr, PollRespWait}
    ensures Driven(PollResponse(s, i).wires) <= Driven(s.wires) + 1
  {
    hide Bounded;
  }

  lemma PollCmdDrives(s: Control, i: Inputs)
    requires Bounded(s) && s.update in {PollCmdAddr, PollCmdWait}
    ensures Driven(PollReady(s, i).wires) <= Driven(s.wires) + 1
  {
    hide Bounded;
  }

  lemma TickDrives(s: Control, i: Inputs)
    requires Bounded(s) && Packed(i)
    ensures Driven(Tick(s, i).wires) <= Active(s)
  {
    hide CommandStep, RespStep, UpdateStep;
    var s0 := s.(wires := QUIET, cmds := s.cmds + i.arrived);
    CommandDrives(s0, i);
    RespDrives(CommandStep(s0, i), i);
    UpdateDrives(RespStep(CommandStep(s0, i), i), i);
  }

  /** In every tick of every run at most one machine is off idle and at most one of AW, W and AR is
      valid, although the bus is marked free while a CMD_READY poll waits for its data. */
  lemma BusExclusion(inputs: seq<Inputs>, i: Inputs)
    requires (forall k :: 0 <= k < |inputs| ==> Packed(inputs[k])) && Packed(i)
    ensures var s := Run(inputs).s; Bounded(s) && Active(s) <= 1 && Driven(Tick(s, i).wires) <= 1
  {
    RunInv(inputs);
    hide Run, PollTrace, CollectTrace, AllWords, Flat, Tick;
    TickDrives(Run(inputs).s, i);
  }

  // How each machine takes and frees the bus.

  lemma CommandBus(s: Control, i: Inputs)
    requires Bounded(s)
    ensures var r := CommandStep(s, i);
      if s.cmd == CmdInactive then
        r.cmd == CmdInactive ==> r == s
      else r.occupied == (s.occupied && r.cmd != CmdInactive)
    ensures var r := CommandStep(s, i);
      s.cmd == CmdInactive && r.cmd != CmdInactive ==>
          !s.occupied && r.occupied && Idle(s.update) && s.cmds != [] && r.cmdbuf == s.cmds[0].words
  {
  }

  lemma RespBus(s: Control, i: Inputs)
    requires Bounded(s)
    ensures var r := RespStep(s, i);
      if s.rsp == RespInactive then r == s
      else
        && r.occupied == (s.occupied && r.rsp != RespInactive)
        && r.registered == if r.rsp == RespInactive then s.registered + [s.resbuf] else s.registered
  {
  }

  lemma UpdateBus(s: Control, i: Inputs)
    requires Bounded(s)
    ensures var r := UpdateStep(s, i);
      if Idle(s.update) then
        if Idle(r.update) then r == s.(counter := r.counter) else !s.occupied && r.occupied && s.counter > CHECK_FREQ
      else if s.update == PollCmdWait then !r.occupied
      else r.occupied == (s.occupied && !(Idle(r.update) && i.rData == 0))
  {
  }

  // ---------------------------------------------------------------- what came in and what went on

  function Arrived(inputs: seq<Inputs>): seq<Command> {
    if inputs == [] then [] else Arrived(inputs[..|inputs| - 1]) + inputs[|inputs| - 1].arrived
  }

  /** Commands taken and commands still queued are those that arrived, in order; every response
      handed on has three words. */
  ghost predicate Ledger(s: Control, arrived: seq<Command>) {
    s.started + s.cmds == arrived && forall k :: 0 <= k < |s.registered| ==> |s.registered[k]| == RESP_WORDS
  }

  lemma CommandLedger(s: Control, i: Inputs, arrived: seq<Command>)
    requires Bounded(s) && Ledger(s, arrived)
    ensures Ledger(CommandStep(s, i), arrived)
  {
    if s.cmds != [] { assert (s.started + [s.cmds[0]]) + s.cmds[1..] == s.started + s.cmds; }
  }

  lemma RespLedger(s: Control, i: Inputs, arrived: seq<Command>)
    requires Bounded(s) && Ledger(s, arrived)
    ensures Ledger(RespStep(s, i), arrived)
  {
    LedgerResponse(i, arrived);
    hide ResponseStep, RecheckValid;
  }

  /** Only the last acknowledgement hands a response on. */
  lemma LedgerResponse(i: Inputs, arrived: seq<Command>)
    ensures forall s: Control :: Bounded(s) && s.rsp in {RespReadyWrite, RespReadyWriteB} && Ledger(s, arrived) ==>
      Ledger(ResponseStep(s, i), arrived)
    ensures forall s: Control :: Bounded(s) && s.rsp in {RecheckValidAddr, RecheckValidRead} && Ledger(s, arrived) ==>
      Ledger(RecheckValid(s, i), arrived)
  {
  }

  lemma UpdateLedger(s: Control, i: Inputs, arrived: seq<Command>)
    requires Bounded(s) && Ledger(s, arrived)
    ensures Ledger(UpdateStep(s, i), arrived)
  {
  }

  lemma TickLedger(s: Control, i: Inputs, arrived: seq<Command>)
    requires Bounded(s) && Packed(i) && Ledger(s, arrived)
    ensures Ledger(Tick(s, i), arrived + i.arrived)
  {
    hide CommandStep, RespStep, UpdateStep;
    var s0 := s.(wires := QUIET, cmds := s.cmds + i.arrived);
    assert s0.started + s0.cmds == arrived + i.arrived;
    CommandLedger(s0, i, arrived + i.arrived);
    RespLedger(CommandStep(s0, i), i, arrived + i.arrived);
    UpdateLedger(RespStep(CommandStep(s0, i), i), i, arrived + i.arrived);
  }

  lemma {:induction false} RunLedger(inputs: seq<Inputs>)
    requires forall k :: 0 <= k < |inputs| ==> Packed(inputs[k])
    ensures Ledger(Run(inputs).s, Arrived(inputs))
    decreases |inputs|
  {
    if inputs != [] {
      var before := inputs[..|inputs| - 1];
      RunInv(before);
      assert Bounded(Run(before).s);
      RunLedger(before);
      hide Inv, Tick, Observe;
      TickLedger(Run(before).s, inputs[|inputs| - 1], Arrived(before));
    }
  }

  /** The completed transfers to the command registers are those of the polling loop: before each
      word the latest read of CMD_READY gave non-zero, after each word comes CMD_VALID = 1, and the
      words are those of the commands that arrived, in order. While no command is under way the
      words of all commands taken from the queue have been handed over. */
  lemma CommandTrace(inputs: seq<Inputs>)
    requires forall k :: 0 <= k < |inputs| ==> Packed(inputs[k])
    ensures var b := Run(inputs); var p := PollTrace(b.m.trace);
      && b.s.started + b.s.cmds == Arrived(inputs)
      && p != Off && p.words <= AllWords(b.s.started)
      && (b.s.cmd == CmdInactive ==> p == Poll(AllWords(b.s.started), b.s.readyForCommand))
  {
    hide Run, PollTrace;
    RunInv(inputs);
    RunLedger(inputs);
    HandedSoFar(Run(inputs).s, Run(inputs).m);
  }

  lemma HandedSoFar(s: Control, m: Monitor)
    requires Inv(s, m)
    ensures var p := PollTrace(m.trace);
      && p != Off && p.words <= AllWords(s.started)
      && (s.cmd == CmdInactive ==> p == Poll(AllWords(s.started), s.readyForCommand))
  {
    hide PollTrace, CollectTrace, CollectExpected, AllWords, Exclusive, PendingAw, PendingW, PendingAr;
    if s.cmd != CmdInactive {
      HandedAll(s.started, s.cmdbuf);
      var a := AllWords(s.started[..|s.started| - 1]);
      Append(a, s.cmdbuf, s.progress);
      assert a + s.cmdbuf[..s.progress] <= a + s.cmdbuf[..CMD_WORDS];
      assert a + s.cmdbuf[..s.progress + 1] <= a + s.cmdbuf[..CMD_WORDS];
    }
  }

  /** Responses handed on are exactly the words read from RESP_BITS, three at a time, each word read
      after RESP_VALID read non-zero. */
  lemma ResponseTrace(inputs: seq<Inputs>)
    requires forall k :: 0 <= k < |inputs| ==> Packed(inputs[k])
    ensures var b := Run(inputs); var c := CollectTrace(b.m.trace);
      && c != Lost && Bounded(b.s)
      && (forall k :: 0 <= k < |b.s.registered| ==> |b.s.registered[k]| == RESP_WORDS)
      && c.words == Flat(b.s.registered) + (if b.s.rsp == RespInactive then [] else b.s.resbuf[..b.s.got])
  {
    hide Run, PollTrace, CollectTrace, Flat, AllWords, PollExpected, Exclusive, PendingAw, PendingW, PendingAr;
    RunInv(inputs);
    RunLedger(inputs);
  }

  /** The tick adds at most one transfer to the trace. */
  ghost predicate Adds(m: Monitor, m': Monitor, unwritten: bool) {
    && m.trace <= m'.trace && |m'.trace| <= |m.trace| + 1
    && ((|m'.trace| > |m.trace| && m'.trace[|m.trace|].Unwritten?) <==> unwritten)
  }

  lemma CommandAdds(s: Control, m: Monitor, i: Inputs)
    requires Inv(s, m) && Packed(i) && s.cmd != CmdInactive
    ensures Adds(m, Observe(m, Tick(s, i).wires, i), false)
  {
    hide PollTrace, CollectTrace, AllWords, Flat, PollExpected, CollectExpected;
  }

  lemma PollAdds(s: Control, m: Monitor, i: Inputs)
    requires Inv(s, m) && Packed(i) && s.cmd == CmdInactive && s.rsp == RespInactive
    ensures Adds(m, Observe(m, Tick(s, i).wires, i), false)
  {
    hide PollTrace, CollectTrace, AllWords, Flat, PollExpected, CollectExpected;
  }

  lemma RespAdds(s: Control, m: Monitor, i: Inputs)
    requires Inv(s, m) && Packed(i) && s.rsp != RespInactive && s.rsp != RespReadyWrite
    ensures Adds(m, Observe(m, Tick(s, i).wires, i), false)
  {
    hide PollTrace, CollectTrace, AllWords, Flat, PollExpected, CollectExpected;
  }

  lemma RespReadyAdds(s: Control, m: Monitor, i: Inputs)
    requires Inv(s, m) && Packed(i) && s.rsp == RespReadyWrite
    ensures Adds(m, Observe(m, Tick(s, i).wires, i), i.bValid && !i.wReady)
  {
    hide PollTrace, CollectTrace, AllWords, Flat, PollExpected, CollectExpected;
  }

  lemma TickAdds(s: Control, m: Monitor, i: Inputs)
    requires Inv(s, m) && Packed(i)
    ensures Adds(m, Observe(m, Tick(s, i).wires, i), s.rsp == RespReadyWrite && i.bValid && !i.wReady)
  {
    assert Exclusive(s);
    hide Inv, Tick, Observe, Adds;
    if s.rsp == RespReadyWrite {
      RespReadyAdds(s, m, i);
    } else if s.rsp != RespInactive {
      RespAdds(s, m, i);
    } else if s.cmd != CmdInactive {
      CommandAdds(s, m, i);
    } else {
      PollAdds(s, m, i);
    }
  }

  lemma RunTick(inputs: seq<Inputs>)
    requires inputs != [] && forall k :: 0 <= k < |inputs| ==> Packed(inputs[k])
    ensures var b, i := Run(inputs[..|inputs| - 1]), inputs[|inputs| - 1];
      Bounded(b.s) && Inv(b.s, b.m) && Run(inputs) == Bench(Tick(b.s, i), Observe(b.m, Tick(b.s, i).wires, i))
  {
    RunInv(inputs[..|inputs| - 1]);
    hide Exclusive, PollExpected, CollectExpected, PollTrace, CollectTrace, PendingAw, PendingW, PendingAr, Tick,
         Observe;
  }

  /** The hardware answers the write of an acknowledgement before it took the data. */
  ghost predicate AnsweredEarly(inputs: seq<Inputs>, k: int) {
    0 <= k < |inputs| && Run(inputs[..k]).s.rsp == RespReadyWrite && inputs[k].bValid && !inputs[k].wReady
  }

  ghost predicate Early(inputs: seq<Inputs>) { exists k :: AnsweredEarly(inputs, k) }

  /** The write of some acknowledgement was answered without its data. */
  ghost predicate Skipped(m: Monitor) { exists e :: e in m.trace && e.Unwritten? }

  lemma EarlyLast(inputs: seq<Inputs>)
    requires inputs != []
    ensures Early(inputs) <==> Early(inputs[..|inputs| - 1]) || AnsweredEarly(inputs, |inputs| - 1)
  {
    hide Run;
    var last := |inputs| - 1;
    var before := inputs[..last];
    forall k | 0 <= k < last ensures AnsweredEarly(inputs, k) <==> AnsweredEarly(before, k) {
      assert before[..k] == inputs[..k];
    }
    if k :| AnsweredEarly(inputs, k) && k != last { assert AnsweredEarly(before, k); }
    if k :| AnsweredEarly(before, k) { assert AnsweredEarly(inputs, k); }
  }

  lemma NewEvents(m: Monitor, m': Monitor, unwritten: bool)
    requires Adds(m, m', unwritten)
    ensures Skipped(m') <==> Skipped(m) || unwritten
  {
    if |m'.trace| > |m.trace| {
      assert m'.trace == m.trace + [m'.trace[|m.trace|]];
    } else {
      assert m'.trace == m.trace;
    }
  }

  /** In a run the acknowledgement of a response word goes out without its data if and only if the
      hardware answers the write before it took the data, which AXI forbids it to do. */
  lemma {:induction false} Unacknowledged(inputs: seq<Inputs>)
    requires forall k :: 0 <= k < |inputs| ==> Packed(inputs[k])
    ensures Skipped(Run(inputs).m) <==> Early(inputs)
    decreases |inputs|
  {
    if inputs != [] {
      hide Run, Inv, Tick, Observe, Adds, Packed, Skipped, Early;
      var last := |inputs| - 1;
      var before := inputs[..last];
      RunTick(inputs);
      Unacknowledged(before);
      TickAdds(Run(before).s, Run(before).m, inputs[last]);
      NewEvents(Run(before).m, Run(inputs).m, AnsweredEarly(inputs, last));
      EarlyLast(inputs);
    }
  }
}
