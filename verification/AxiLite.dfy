/** The AXI-lite control machine (runtime/include/core/state_machine.h): a command machine, a response
    machine and a polling machine that share one bus, stepped once per clock. The functions say what
    a tick does for any inputs; class AxiControl runs them the way the source does. */
module AxiLite {
  import opened Options

  datatype Reg = CmdBits | CmdValid | CmdReady | RespBits | RespValid | RespReady

  datatype CmdState =
    | CmdInactive | BitsAddr | BitsDat | BitsB | ValidAddr | ValidDat | ValidB | RecheckReadyAddr | RecheckReadyDat

  datatype RespState =
    | RespInactive | RespBitsAddr | RespBitsRead | RespReadyAddr | RespReadyWrite | RespReadyWriteB
    | RecheckValidAddr | RecheckValidRead

  datatype UpdateState = IdleResp | IdleCmd | PollCmdAddr | PollCmdWait | PollRespAddr | PollRespWait

  /** A queued command: its packed words and whether it asks for a response. */
  datatype Command = Command(words: seq<int>, xd: bool)

  const CMD_WORDS := 5
  const RESP_WORDS := 3
  const CHECK_FREQ := 50

  /** What the hardware drives in a tick, and the commands that the server queued since the last. */
  datatype Inputs = Inputs(awReady: bool, wReady: bool, bValid: bool, arReady: bool, rValid: bool, rData: int,
                           arrived: seq<Command>)

  /** What the machine drives: valid signals carry their address or data. */
  datatype Wires = Wires(aw: Option<Reg>, w: Option<int>, ar: Option<Reg>, bReady: bool, rReady: bool)

  const QUIET := Wires(None, None, None, false, false)

  datatype Control = Control(
    cmd: CmdState, cmdbuf: seq<int>, progress: int, readyForCommand: bool,
    rsp: RespState, resbuf: seq<int>, got: int,
    update: UpdateState, occupied: bool, counter: int, inflight: int,
    cmds: seq<Command>, wires: Wires,
    // history: the commands taken from the queue and the responses handed on
    started: seq<Command>, registered: seq<seq<int>>)

  function Initial(): Control {
    Control(CmdInactive, seq(CMD_WORDS, _ => 0), 0, false, RespInactive, seq(RESP_WORDS, _ => 0), 0,
            IdleCmd, false, 0, 0, [], QUIET, [], [])
  }

  predicate Idle(u: UpdateState) { u == IdleResp || u == IdleCmd }

  /** Buffers have their size and the indices used on them lie inside. */
  predicate Bounded(s: Control) {
    && |s.cmdbuf| == CMD_WORDS && |s.resbuf| == RESP_WORDS
    && (s.cmd != CmdInactive ==> 0 <= s.progress < CMD_WORDS)
    && 0 <= s.got <= RESP_WORDS
    && (s.rsp in {RespBitsAddr, RespBitsRead, RecheckValidAddr, RecheckValidRead} ==> s.got < RESP_WORDS)
    && forall i :: 0 <= i < |s.cmds| ==> |s.cmds[i].words| == CMD_WORDS
  }

  function TakeCommand(s: Control): (r: Control)
    requires Bounded(s)
    ensures Bounded(r)
  {
    if s.readyForCommand && !s.occupied && Idle(s.update) && s.cmds != [] then
      var c := s.cmds[0];
      s.(occupied := true, cmd := BitsAddr, cmdbuf := c.words, progress := 0,
         inflight := s.inflight + (if c.xd then 1 else 0),
         cmds := s.cmds[1..], started := s.started + [c])
    else s
  }

  /** Handing over one word: its address, its data, its response. */
  function WriteBits(s: Control, i: Inputs): (r: Control)
    requires Bounded(s) && s.cmd in {BitsAddr, BitsDat, BitsB}
    ensures Bounded(r)
  {
    match s.cmd
    case BitsAddr =>
      s.(readyForCommand := false, wires := s.wires.(aw := Some(CmdBits)),
         cmd := if i.awReady then BitsDat else BitsAddr)
    case BitsDat => s.(wires := s.wires.(w := Some(s.cmdbuf[s.progress])), cmd := if i.wReady then BitsB else BitsDat)
    case _ => s.(wires := s.wires.(bReady := true), cmd := if i.bValid then ValidAddr else BitsB)
  }

  /** Telling the hardware that the word is there; the bus is free again after the last one. */
  function WriteValid(s: Control, i: Inputs): (r: Control)
    requires Bounded(s) && s.cmd in {ValidAddr, ValidDat, ValidB}
    ensures Bounded(r)
  {
    match s.cmd
    case ValidAddr => s.(wires := s.wires.(aw := Some(CmdValid)), cmd := if i.awReady then ValidDat else ValidAddr)
    case ValidDat => s.(wires := s.wires.(w := Some(1)), cmd := if i.wReady then ValidB else ValidDat)
    case _ =>
      var s1 := s.(wires := s.wires.(bReady := true));
      if !i.bValid then s1
      else if s.progress + 1 == CMD_WORDS then s1.(progress := s.progress + 1, cmd := CmdInactive, occupied := false)
      else s1.(progress := s.progress + 1, cmd := RecheckReadyAddr)
  }

  /** Asking whether the hardware takes another word. */
  function RecheckReady(s: Control, i: Inputs): (r: Control)
    requires Bounded(s) && s.cmd in {RecheckReadyAddr, RecheckReadyDat}
    ensures Bounded(r)
  {
    if s.cmd == RecheckReadyAddr then
      s.(wires := s.wires.(ar := Some(CmdReady)), cmd := if i.arReady then RecheckReadyDat else RecheckReadyAddr)
    else
      s.(wires := s.wires.(rReady := true),
         cmd := if !i.rValid then RecheckReadyDat else if i.rData != 0 then BitsAddr else RecheckReadyAddr)
  }

  function CommandStep(s: Control, i: Inputs): (r: Control)
    requires Bounded(s)
    ensures Bounded(r)
  {
    match s.cmd
    case BitsAddr | BitsDat | BitsB => WriteBits(s, i)
    case ValidAddr | ValidDat | ValidB => WriteValid(s, i)
    case RecheckReadyAddr | RecheckReadyDat => RecheckReady(s, i)
    case CmdInactive => TakeCommand(s)
  }

  /** Waiting for the write response. The state before it runs into this one in the same tick. */
  function ResponseStep(s: Control, i: Inputs): (r: Control)
    requires Bounded(s) && s.rsp in {RespReadyWrite, RespReadyWriteB}
    ensures Bounded(r)
  {
    var s1 := s.(wires := s.wires.(bReady := true));
    if !i.bValid then s1
    else if s.got == RESP_WORDS then
      s1.(registered := s.registered + [s.resbuf], inflight := s.inflight - 1, occupied := false, rsp := RespInactive)
    else s1.(rsp := RecheckValidAddr)
  }

  /** Reading one word, and offering its acknowledgement. */
  function ReadBits(s: Control, i: Inputs): (r: Control)
    requires Bounded(s) && s.rsp in {RespBitsAddr, RespBitsRead, RespReadyAddr}
    ensures Bounded(r)
  {
    match s.rsp
    case RespBitsAddr =>
      s.(wires := s.wires.(ar := Some(RespBits)), rsp := if i.arReady then RespBitsRead else RespBitsAddr)
    case RespBitsRead =>
      var s1 := s.(wires := s.wires.(rReady := true));
      if i.rValid then s1.(resbuf := s.resbuf[s.got := i.rData], got := s.got + 1, rsp := RespReadyAddr) else s1
    case _ => s.(wires := s.wires.(aw := Some(RespReady)), rsp := if i.awReady then RespReadyWrite else RespReadyAddr)
  }

  /** Asking whether the hardware has another word. */
  function RecheckValid(s: Control, i: Inputs): (r: Control)
    requires Bounded(s) && s.rsp in {RecheckValidAddr, RecheckValidRead}
    ensures Bounded(r)
  {
    if s.rsp == RecheckValidAddr then
      s.(wires := s.wires.(ar := Some(RespValid)), rsp := if i.arReady then RecheckValidRead else RecheckValidAddr)
    else
      s.(wires := s.wires.(rReady := true),
         rsp := if !i.rValid then RecheckValidRead else if i.rData != 0 then RespBitsAddr else RecheckValidAddr)
  }

  function OfferReady(s: Control, i: Inputs): (r: Control)
    requires Bounded(s) && s.rsp == RespReadyWrite
    ensures Bounded(r) && r.rsp in {RespReadyWrite, RespReadyWriteB}
  {
    s.(wires := s.wires.(w := Some(1)), rsp := if i.wReady then RespReadyWriteB else RespReadyWrite)
  }

  function RespStep(s: Control, i: Inputs): (r: Control)
    requires Bounded(s)
    ensures Bounded(r)
  {
    match s.rsp
    case RespInactive => s
    case RespBitsAddr | RespBitsRead | RespReadyAddr => ReadBits(s, i)
    case RespReadyWrite => ResponseStep(OfferReady(s, i), i)
    case RespReadyWriteB => ResponseStep(s, i)
    case RecheckValidAddr | RecheckValidRead => RecheckValid(s, i)
  }

  /** Every so often, on a free bus, a poll starts. */
  function StartPoll(s: Control, poll: UpdateState): (r: Control)
    requires Bounded(s)
    ensures Bounded(r)
  {
    if !s.occupied && s.counter > CHECK_FREQ then s.(counter := 0, occupied := true, update := poll)
    else s.(counter := s.counter + 1)
  }

  function PollResponse(s: Control, i: Inputs): (r: Control)
    requires Bounded(s) && s.update in {PollRespAddr, PollRespWait}
    ensures Bounded(r)
  {
    if s.update == PollRespAddr then
      s.(wires := s.wires.(ar := Some(RespValid)), update := if i.arReady then PollRespWait else PollRespAddr)
    else
      var s1 := s.(wires := s.wires.(rReady := true));
      if !i.rValid then s1
      else if i.rData != 0 then s1.(got := 0, rsp := RespBitsAddr, update := IdleCmd)
      else s1.(got := 0, occupied := false, update := IdleCmd)
  }

  /** While it waits for its data this poll marks the bus as free. */
  function PollReady(s: Control, i: Inputs): (r: Control)
    requires Bounded(s) && s.update in {PollCmdAddr, PollCmdWait}
    ensures Bounded(r)
  {
    if s.update == PollCmdAddr then
      s.(wires := s.wires.(ar := Some(CmdReady)), update := if i.arReady then PollCmdWait else PollCmdAddr)
    else
      var s1 := s.(wires := s.wires.(rReady := true), occupied := false);
      if !i.rValid then s1
      else s1.(readyForCommand := i.rData != 0, update := if s.inflight > 0 then IdleResp else IdleCmd)
  }

  function UpdateStep(s: Control, i: Inputs): (r: Control)
    requires Bounded(s)
    ensures Bounded(r)
  {
    match s.update
    case IdleResp => StartPoll(s, PollRespAddr)
    case IdleCmd => StartPoll(s, PollCmdAddr)
    case PollRespAddr | PollRespWait => PollResponse(s, i)
    case PollCmdAddr | PollCmdWait => PollReady(s, i)
  }

  /** The server queues packed commands of five words. */
  predicate Packed(i: Inputs) { forall k :: 0 <= k < |i.arrived| ==> |i.arrived[k].words| == CMD_WORDS }

  /** One clock: signals drop, then the three machines run in turn. */
  function Tick(s: Control, i: Inputs): (r: Control)
    requires Bounded(s) && Packed(i)
    ensures Bounded(r)
  {
    UpdateStep(RespStep(CommandStep(s.(wires := QUIET, cmds := s.cmds + i.arrived), i), i), i)
  }

  // ---------------------------------------------------------------- a monitor that sees only the wires

  datatype Event = Wr(reg: Reg, data: int) | Rd(reg: Reg, data: int) | Unwritten(reg: Reg) | Stray

  /** Transfers under way and the transfers completed so far. */
  datatype Monitor = Monitor(aw: Option<Reg>, w: Option<int>, ar: Option<Reg>, trace: seq<Event>)

  /** A valid signal met by its ready passes. A write is complete with its response; one whose data
      never passed is `Unwritten`. A read is complete with its data. */
  function Observe(m: Monitor, o: Wires, i: Inputs): Monitor {
    var m1 := if o.aw.Some? && i.awReady then m.(aw := o.aw) else m;
    var m2 := if o.w.Some? && i.wReady then m1.(w := o.w) else m1;
    var m3 :=
      if o.bReady && i.bValid then
        var e := if m2.aw.None? then Stray
                 else if m2.w.None? then Unwritten(m2.aw.value)
                 else Wr(m2.aw.value, m2.w.value);
        m2.(aw := None, w := None, trace := m2.trace + [e])
      else m2;
    var m4 := if o.ar.Some? && i.arReady then m3.(ar := o.ar) else m3;
    if o.rReady && i.rValid then
      m4.(ar := None, trace := m4.trace + [if m4.ar.None? then Stray else Rd(m4.ar.value, i.rData)])
    else m4
  }
}
