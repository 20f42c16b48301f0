/** When the control machine starts something: a command, a poll of CMD_READY, a poll of RESP_VALID. */
module AxiLitePolls {
  import opened AxiLite
  import opened AxiLiteProofs
  import opened Options

  // ---------------------------------------------------------------- responses awaited

  /** Commands that ask for a response. */
  function Asking(cs: seq<Command>): nat {
    if cs == [] then 0 else Asking(cs[..|cs| - 1]) + if cs[|cs| - 1].xd then 1 else 0
  }

  /** The response side of the bus is in use or its poll is due. */
  predicate Collects(s: Control) { s.rsp != RespInactive || s.update in {IdleResp, PollRespAddr, PollRespWait} }

  predicate DrivesResponse(w: Wires) { w.ar in {Some(RespValid), Some(RespBits)} || w.aw == Some(RespReady) }

  /** The count of responses awaited is right, never negative, and positive whenever the response side is in
      use. */
  ghost predicate Owed(s: Control) {
    && s.inflight == Asking(s.started) - |s.registered| && 0 <= s.inflight
    && (Collects(s) || DrivesResponse(s.wires) ==> 0 < s.inflight)
    && (s.rsp != RespInactive ==> s.update == IdleCmd)
  }

  lemma AskingSnoc(cs: seq<Command>, c: Command)
    ensures Asking(cs + [c]) == Asking(cs) + if c.xd then 1 else 0
  {
    assert (cs + [c])[..|cs|] == cs;
  }

  /** A command on its way leaves the response side and the polls alone. */
  predicate Aside(s: Control, r: Control) {
    && r == s.(cmd := r.cmd, progress := r.progress, occupied := r.occupied, readyForCommand := r.readyForCommand,
               wires := r.wires)
    && (DrivesResponse(r.wires) ==> DrivesResponse(s.wires))
  }

  lemma BitsAside(s: Control, i: Inputs)
    requires Bounded(s) && s.cmd in {BitsAddr, BitsDat, BitsB}
    ensures Aside(s, WriteBits(s, i))
  {
  }

  lemma ValidAside(s: Control, i: Inputs)
    requires Bounded(s) && s.cmd in {ValidAddr, ValidDat, ValidB}
    ensures Aside(s, WriteValid(s, i))
  {
  }

  lemma RecheckAside(s: Control, i: Inputs)
    requires Bounded(s) && s.cmd in {RecheckReadyAddr, RecheckReadyDat}
    ensures Aside(s, RecheckReady(s, i))
  {
  }

  lemma CommandAside(s: Control, i: Inputs)
    requires Bounded(s)
    ensures s.cmd != CmdInactive ==> Aside(s, CommandStep(s, i))
    ensures s.cmd == CmdInactive ==> CommandStep(s, i) == TakeCommand(s)
  {
    hide WriteBits, WriteValid, RecheckReady, TakeCommand, Aside;
    match s.cmd
    case BitsAddr | BitsDat | BitsB => BitsAside(s, i);
    case ValidAddr | ValidDat | ValidB => ValidAside(s, i);
    case RecheckReadyAddr | RecheckReadyDat => RecheckAside(s, i);
    case CmdInactive =>
  }

  lemma CommandOwed(s: Control, i: Inputs)
    requires Bounded(s) && Owed(s)
    ensures Owed(CommandStep(s, i))
  {
    hide CommandStep, Asking;
    CommandAside(s, i);
    if s.cmds != [] { AskingSnoc(s.started, s.cmds[0]); }
  }

  lemma ReadOwed(s: Control, i: Inputs)
    requires Bounded(s) && Owed(s) && s.rsp in {RespBitsAddr, RespBitsRead, RespReadyAddr}
    ensures Owed(ReadBits(s, i))
  {
    hide Asking;
  }

  lemma RecheckOwed(s: Control, i: Inputs)
    requires Bounded(s) && Owed(s) && s.rsp in {RecheckValidAddr, RecheckValidRead}
    ensures Owed(RecheckValid(s, i))
  {
    hide Asking;
  }

  lemma OfferOwed(s: Control, i: Inputs)
    requires Bounded(s) && Owed(s) && s.rsp == RespReadyWrite
    ensures Owed(OfferReady(s, i))
  {
    hide Asking;
  }

  lemma ResponseOwed(s: Control, i: Inputs)
    requires Bounded(s) && Owed(s) && s.rsp in {RespReadyWrite, RespReadyWriteB} && !DrivesResponse(s.wires)
    ensures Owed(ResponseStep(s, i))
  {
    hide Asking;
  }

  lemma RespOwed(s: Control, i: Inputs)
    requires Bounded(s) && Owed(s) && !DrivesResponse(s.wires)
    ensures Owed(RespStep(s, i))
  {
    hide ReadBits, RecheckValid, OfferReady, ResponseStep, Owed;
    match s.rsp
    case RespInactive =>
    case RespBitsAddr | RespBitsRead | RespReadyAddr => ReadOwed(s, i);
    case RespReadyWrite =>
      OfferOwed(s, i);
      OfferQuiet(s, i);
      ResponseOwed(OfferReady(s, i), i);
    case RespReadyWriteB => ResponseOwed(s, i);
    case RecheckValidAddr | RecheckValidRead => RecheckOwed(s, i);
  }

  lemma OfferQuiet(s: Control, i: Inputs)
    requires Bounded(s) && s.rsp == RespReadyWrite && !DrivesResponse(s.wires)
    ensures !DrivesResponse(OfferReady(s, i).wires)
  {
  }

  lemma StartOwed(s: Control, poll: UpdateState)
    requires Bounded(s) && Owed(s) && (s.rsp != RespInactive ==> s.occupied)
    requires (s.update == IdleResp && poll == PollRespAddr) || (s.update == IdleCmd && poll == PollCmdAddr)
    ensures Owed(StartPoll(s, poll))
  {
    hide Asking;
  }

  lemma PollRespOwed(s: Control, i: Inputs)
    requires Bounded(s) && Owed(s) && s.update in {PollRespAddr, PollRespWait}
    ensures Owed(PollResponse(s, i))
  {
    hide Asking;
  }

  lemma PollReadyOwed(s: Control, i: Inputs)
    requires Bounded(s) && Owed(s) && s.update in {PollCmdAddr, PollCmdWait}
    ensures Owed(PollReady(s, i))
  {
    hide Asking;
  }

  lemma UpdateOwed(s: Control, i: Inputs)
    requires Bounded(s) && Owed(s)
    requires s.rsp != RespInactive ==> s.occupied
    ensures Owed(UpdateStep(s, i))
  {
    hide StartPoll, PollResponse, PollReady, Owed;
    match s.update
    case IdleResp => StartOwed(s, PollRespAddr);
    case IdleCmd => StartOwed(s, PollCmdAddr);
    case PollRespAddr | PollRespWait => PollRespOwed(s, i);
    case PollCmdAddr | PollCmdWait => PollReadyOwed(s, i);
  }

  lemma CommandQuiet(s: Control, i: Inputs)
    requires Bounded(s) && !DrivesResponse(s.wires)
    ensures var r := CommandStep(s, i); !DrivesResponse(r.wires) && r.rsp == s.rsp
  {
    hide CommandStep;
    CommandAside(s, i);
  }

  lemma StillOccupied(s: Control, i: Inputs)
    requires Bounded(s) && Exclusive(s)
    ensures var r := RespStep(CommandStep(s, i), i); r.rsp != RespInactive ==> r.occupied
  {
    hide CommandStep, RespStep;
    CommandRsp(s, i);
    RespBus(CommandStep(s, i), i);
  }

  lemma CommandRsp(s: Control, i: Inputs)
    requires Bounded(s) && Exclusive(s)
    ensures var r := CommandStep(s, i); r.rsp == s.rsp && (r.rsp != RespInactive ==> r.occupied)
  {
  }

  lemma TickOwed(s: Control, i: Inputs)
    requires Bounded(s) && Packed(i) && Owed(s) && Exclusive(s)
    ensures Owed(Tick(s, i))
  {
    var s0 := s.(wires := QUIET, cmds := s.cmds + i.arrived);
    assert Bounded(s0) && Exclusive(s0) && Owed(s0) && !DrivesResponse(s0.wires);
    hide CommandStep, RespStep, UpdateStep, Owed, Exclusive, DrivesResponse;
    CommandOwed(s0, i);
    CommandQuiet(s0, i);
    RespOwed(CommandStep(s0, i), i);
    StillOccupied(s0, i);
    UpdateOwed(RespStep(CommandStep(s0, i), i), i);
  }

  /** In every run the machine awaits as many responses as it has taken commands that ask for one, less
      those it has handed on; and it polls for a response, reads or acknowledges one only while it awaits
      one. */
  lemma {:induction false} AwaitedResponses(inputs: seq<Inputs>)
    requires forall k :: 0 <= k < |inputs| ==> Packed(inputs[k])
    ensures Owed(Run(inputs).s)
    decreases |inputs|
  {
    if inputs != [] {
      var before := inputs[..|inputs| - 1];
      RunInv(before);
      AwaitedResponses(before);
      var b := Run(before);
      assert Bounded(b.s) && Exclusive(b.s);
      hide Inv, Tick, Observe, Owed, Exclusive;
      TickOwed(b.s, inputs[|inputs| - 1]);
    }
  }

  // ---------------------------------------------------------------- when a command is taken

  /** No machine is at work. */
  predicate AtRest(s: Control) { s.cmd == CmdInactive && s.rsp == RespInactive && Idle(s.update) }

  lemma TakesIff(s: Control, i: Inputs)
    requires Bounded(s) && Packed(i) && Exclusive(s)
    ensures var s', q := Tick(s, i), s.cmds + i.arrived;
      if AtRest(s) && s.readyForCommand && q != [] then s'.started == s.started + [q[0]] && s'.cmds == q[1..]
      else s'.started == s.started && s'.cmds == q
  {
    var s0 := s.(wires := QUIET, cmds := s.cmds + i.arrived);
    hide CommandStep, RespStep, UpdateStep;
    CommandTakes(s0, i);
    RespTakes(CommandStep(s0, i), i);
    UpdateTakes(RespStep(CommandStep(s0, i), i), i);
  }

  lemma CommandTakes(s: Control, i: Inputs)
    requires Bounded(s) && Exclusive(s)
    ensures var r := CommandStep(s, i);
      if AtRest(s) && s.readyForCommand && s.cmds != [] then
        r.started == s.started + [s.cmds[0]] && r.cmds == s.cmds[1..]
      else r.started == s.started && r.cmds == s.cmds
  {
  }

  lemma RespTakes(s: Control, i: Inputs)
    requires Bounded(s)
    ensures var r := RespStep(s, i); r.started == s.started && r.cmds == s.cmds
  {
  }

  lemma UpdateTakes(s: Control, i: Inputs)
    requires Bounded(s)
    ensures var r := UpdateStep(s, i); r.started == s.started && r.cmds == s.cmds
  {
  }

  /** After any run a tick takes the first queued command if and only if there is one, no machine is at
      work and the hardware has said, when CMD_READY was last read and with no word since, that it is ready. */
  lemma CommandStarts(inputs: seq<Inputs>, i: Inputs)
    requires (forall k :: 0 <= k < |inputs| ==> Packed(inputs[k])) && Packed(i)
    ensures var b := Run(inputs); var p, q := PollTrace(b.m.trace), b.s.cmds + i.arrived;
      && Bounded(b.s)
      && var s' := Tick(b.s, i);
        if AtRest(b.s) && p.Poll? && p.ready && q != [] then s'.started == b.s.started + [q[0]] && s'.cmds == q[1..]
        else s'.started == b.s.started && s'.cmds == q
  {
    RunInv(inputs);
    hide Run, Tick, PollTrace, CollectTrace, AllWords, Flat, PendingAw, PendingW, PendingAr, CollectExpected;
    TakesIff(Run(inputs).s, i);
  }

  // ---------------------------------------------------------------- when a poll starts

  /** Ticks since the last poll started in which no poll was under way. */
  ghost function Since(inputs: seq<Inputs>): nat {
    if inputs == [] then 0
    else
      var before := inputs[..|inputs| - 1];
      if !Idle(Run(before).s.update) then Since(before)
      else if Idle(Run(inputs).s.update) then Since(before) + 1
      else 0
  }

  lemma CommandPolls(s: Control, i: Inputs)
    requires Bounded(s)
    ensures var r := CommandStep(s, i); r.update == s.update && r.counter == s.counter
  {
  }

  lemma RespPolls(s: Control, i: Inputs)
    requires Bounded(s)
    ensures var r := RespStep(s, i); r.update == s.update && r.counter == s.counter
  {
  }

  lemma UpdatePolls(s: Control, i: Inputs)
    requires Bounded(s)
    ensures var r := UpdateStep(s, i);
      if Idle(s.update) then
        && r.cmd == s.cmd && r.rsp == s.rsp
        && (if !s.occupied && s.counter > 50 then
              r.counter == 0 && r.update == if s.update == IdleResp then PollRespAddr else PollCmdAddr
            else r.counter == s.counter + 1 && r.update == s.update)
      else r.counter == s.counter
  {
  }

  /** With no poll under way the bus is taken exactly while a command or a response is. */
  lemma BusTaken(s: Control, i: Inputs)
    requires Bounded(s) && Exclusive(s) && Idle(s.update)
    ensures var r := RespStep(CommandStep(s, i), i);
      r.occupied <==> r.cmd != CmdInactive || r.rsp != RespInactive
  {
    hide CommandStep, RespStep;
    CommandTaken(s, i);
    RespTaken(CommandStep(s, i), i);
  }

  lemma CommandTaken(s: Control, i: Inputs)
    requires Bounded(s) && Exclusive(s) && Idle(s.update)
    ensures var r := CommandStep(s, i);
      && (r.occupied <==> r.cmd != CmdInactive || r.rsp != RespInactive)
      && (r.cmd == CmdInactive || r.rsp == RespInactive)
  {
  }

  lemma RespTaken(s: Control, i: Inputs)
    requires Bounded(s) && (s.occupied <==> s.cmd != CmdInactive || s.rsp != RespInactive)
    requires s.cmd == CmdInactive || s.rsp == RespInactive
    ensures var r := RespStep(s, i); r.occupied <==> r.cmd != CmdInactive || r.rsp != RespInactive
  {
  }

  lemma TickPolls(s: Control, i: Inputs)
    requires Bounded(s) && Packed(i) && Exclusive(s)
    ensures var r := Tick(s, i);
      if Idle(s.update) then
        if r.cmd == CmdInactive && r.rsp == RespInactive && s.counter > 50 then
          r.counter == 0 && r.update == if s.update == IdleResp then PollRespAddr else PollCmdAddr
        else r.counter == s.counter + 1 && r.update == s.update
      else r.counter == s.counter
  {
    var s0 := s.(wires := QUIET, cmds := s.cmds + i.arrived);
    assert Bounded(s0) && Exclusive(s0);
    hide CommandStep, RespStep, UpdateStep, Exclusive;
    CommandPolls(s0, i);
    RespPolls(CommandStep(s0, i), i);
    UpdatePolls(RespStep(CommandStep(s0, i), i), i);
    if Idle(s.update) { BusTaken(s0, i); }
  }

  lemma {:induction false} Counts(inputs: seq<Inputs>)
    requires forall k :: 0 <= k < |inputs| ==> Packed(inputs[k])
    ensures Run(inputs).s.counter == Since(inputs)
    decreases |inputs|
  {
    if inputs != [] {
      var before := inputs[..|inputs| - 1];
      RunInv(before);
      Counts(before);
      var b := Run(before);
      assert Bounded(b.s) && Exclusive(b.s);
      hide Inv, Tick, Observe, Exclusive;
      TickPolls(b.s, inputs[|inputs| - 1]);
    }
  }

  /** After any run a tick starts a poll if and only if none is under way, neither a command nor a
      response is after it, and more than fifty ticks without a poll have passed since the last one
      started. It asks for a response if the last poll of CMD_READY found one awaited, else whether the
      hardware takes a word. */
  lemma PollStarts(inputs: seq<Inputs>, i: Inputs)
    requires (forall k :: 0 <= k < |inputs| ==> Packed(inputs[k])) && Packed(i)
    ensures var s := Run(inputs).s;
      && Bounded(s)
      && var s' := Tick(s, i);
        Idle(s.update) ==>
          s'.update ==
            if s'.cmd == CmdInactive && s'.rsp == RespInactive && Since(inputs) > 50 then
              (if s.update == IdleResp then PollRespAddr else PollCmdAddr)
            else s.update
  {
    RunInv(inputs);
    Counts(inputs);
    hide Run, Tick, PollTrace, CollectTrace, AllWords, Flat, PendingAw, PendingW, PendingAr, CollectExpected,
         PollExpected, Since;
    TickPolls(Run(inputs).s, i);
  }

  /** After any run a poll of CMD_READY that has its answer is followed by a poll of RESP_VALID if and only
      if a response is awaited, and a poll of RESP_VALID by one of CMD_READY. */
  lemma PollTurns(inputs: seq<Inputs>, i: Inputs)
    requires (forall k :: 0 <= k < |inputs| ==> Packed(inputs[k])) && Packed(i)
    ensures var s := Run(inputs).s;
      && Bounded(s)
      && var s' := Tick(s, i);
        && (s.update == PollCmdWait && i.rValid ==>
              s'.update == if Asking(s.started) > |s.registered| then IdleResp else IdleCmd)
        && (s.update == PollRespWait && i.rValid ==>
              s'.update == IdleCmd && (s'.rsp == RespBitsAddr <==> i.rData != 0))
  {
    RunInv(inputs);
    AwaitedResponses(inputs);
    hide Run, PollTrace, CollectTrace, AllWords, Flat, PendingAw, PendingW, PendingAr, CollectExpected, PollExpected,
         Asking, Tick;
    PollEnds(Run(inputs).s, i);
  }

  lemma PollEnds(s: Control, i: Inputs)
    requires Bounded(s) && Packed(i) && Exclusive(s)
    ensures var s' := Tick(s, i);
      && (s.update == PollCmdWait && i.rValid ==> s'.update == if s.inflight > 0 then IdleResp else IdleCmd)
      && (s.update == PollRespWait && i.rValid ==>
            s'.update == IdleCmd && (s'.rsp == RespBitsAddr <==> i.rData != 0))
  {
    if !Idle(s.update) { OnlyPolls(s, i); }
    hide CommandStep, RespStep;
  }

  /** While a poll is under way the other machines are idle. */
  lemma OnlyPolls(s: Control, i: Inputs)
    requires Bounded(s) && Packed(i) && Exclusive(s) && !Idle(s.update)
    ensures var s0 := s.(wires := QUIET, cmds := s.cmds + i.arrived); Bounded(s0) && Tick(s, i) == UpdateStep(s0, i)
  {
    hide UpdateStep;
  }
}
