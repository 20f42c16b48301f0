/** The control machine as the source runs it (runtime/include/core/state_machine.h): one object whose
    three switches update shared fields in turn. `Valid` is the run invariant with the monitor beside. */
module AxiControlMachine {
  import opened AxiLite
  import opened AxiLiteProofs
  import opened Options

  class AxiControl {
    var cmd: CmdState
    var cmdbuf: seq<int>
    var progress: int
    var readyForCommand: bool
    var rsp: RespState
    var resbuf: seq<int>
    var got: int
    var update: UpdateState
    var occupied: bool
    var counter: int
    var inflight: int
    var cmds: seq<Command>
    var wires: Wires
    ghost var started: seq<Command>
    ghost var registered: seq<seq<int>>
    ghost var monitor: Monitor

    ghost function Abs(): Control
      reads this
    {
      Control(cmd, cmdbuf, progress, readyForCommand, rsp, resbuf, got, update, occupied, counter, inflight, cmds,
              wires, started, registered)
    }

    ghost predicate Valid()
      reads this
    {
      Inv(Abs(), monitor)
    }

    constructor ()
      ensures Valid() && Abs() == Initial() && monitor.trace == []
    {
      cmd, cmdbuf, progress, readyForCommand := CmdInactive, [0, 0, 0, 0, 0], 0, false;
      rsp, resbuf, got := RespInactive, [0, 0, 0], 0;
      update, occupied, counter, inflight := IdleCmd, false, 0, 0;
      cmds, wires, started, registered := [], QUIET, [], [];
      monitor := Monitor(None, None, None, []);
      new;
      assert Abs() == Initial();
      InitialInv();
    }

    method StartCommand()
      requires Bounded(Abs())
      modifies this`cmd, this`cmdbuf, this`progress, this`occupied, this`inflight, this`cmds, this`started
      ensures Abs() == TakeCommand(old(Abs()))
    {
      if readyForCommand && !occupied && Idle(update) {
        if cmds != [] {
          occupied, cmd, cmdbuf, progress := true, BitsAddr, cmds[0].words, 0;
          if cmds[0].xd {
            inflight := inflight + 1;
          }
          started, cmds := started + [cmds[0]], cmds[1..];
        }
      }
    }

    method HandOverWord(i: Inputs)
      requires Bounded(Abs()) && cmd in {BitsAddr, BitsDat, BitsB}
      modifies this`cmd, this`readyForCommand, this`wires
      ensures Abs() == WriteBits(old(Abs()), i)
    {
      if cmd == BitsAddr {
        readyForCommand := false;
        wires := wires.(aw := Some(CmdBits));
        if i.awReady {
          cmd := BitsDat;
        }
      } else if cmd == BitsDat {
        wires := wires.(w := Some(cmdbuf[progress]));
        if i.wReady {
          cmd := BitsB;
        }
      } else {
        wires := wires.(bReady := true);
        if i.bValid {
          cmd := ValidAddr;
        }
      }
    }

    method ToggleValid(i: Inputs)
      requires Bounded(Abs()) && cmd in {ValidAddr, ValidDat, ValidB}
      modifies this`cmd, this`progress, this`occupied, this`wires
      ensures Abs() == WriteValid(old(Abs()), i)
    {
      if cmd == ValidAddr {
        wires := wires.(aw := Some(CmdValid));
        if i.awReady {
          cmd := ValidDat;
        }
      } else if cmd == ValidDat {
        wires := wires.(w := Some(1));
        if i.wReady {
          cmd := ValidB;
        }
      } else {
        wires := wires.(bReady := true);
        if i.bValid {
          progress := progress + 1;
          if progress == CMD_WORDS {
            cmd := CmdInactive;
            occupied := false;
          } else {
            cmd := RecheckReadyAddr;
          }
        }
      }
    }

    method AskReady(i: Inputs)
      requires Bounded(Abs()) && cmd in {RecheckReadyAddr, RecheckReadyDat}
      modifies this`cmd, this`wires
      ensures Abs() == RecheckReady(old(Abs()), i)
    {
      if cmd == RecheckReadyAddr {
        wires := wires.(ar := Some(CmdReady));
        if i.arReady {
          cmd := RecheckReadyDat;
        }
      } else {
        wires := wires.(rReady := true);
        if i.rValid {
          if i.rData != 0 {
            cmd := BitsAddr;
          } else {
            cmd := RecheckReadyAddr;
          }
        }
      }
    }

    method UpdateCommandState(i: Inputs)
      requires Bounded(Abs())
      modifies this`cmd, this`cmdbuf, this`progress, this`readyForCommand, this`occupied, this`inflight, this`cmds
      modifies this`wires, this`started
      ensures Abs() == CommandStep(old(Abs()), i)
      // it drives at most one of AW, W and AR, and only off idle
      ensures Driven(wires) <= Driven(old(wires)) + if old(cmd) == CmdInactive then 0 else 1
      // it takes a free bus for the first queued command and frees it with the last word
      ensures old(cmd) == CmdInactive && cmd != CmdInactive ==>
        !old(occupied) && occupied && old(cmds) != [] && cmdbuf == old(cmds)[0].words
      ensures old(cmd) != CmdInactive ==> occupied == (old(occupied) && cmd != CmdInactive)
    {
      CommandDrives(Abs(), i);
      CommandBus(Abs(), i);
      hide TakeCommand, WriteBits, WriteValid, RecheckReady, Driven;
      match cmd {
        case BitsAddr | BitsDat | BitsB => HandOverWord(i);
        case ValidAddr | ValidDat | ValidB => ToggleValid(i);
        case RecheckReadyAddr | RecheckReadyDat => AskReady(i);
        case CmdInactive => StartCommand();
      }
    }

    method AwaitAcknowledge(i: Inputs)
      requires Bounded(Abs()) && rsp in {RespReadyWrite, RespReadyWriteB}
      modifies this`rsp, this`occupied, this`inflight, this`wires, this`registered
      ensures Abs() == ResponseStep(old(Abs()), i)
    {
      wires := wires.(bReady := true);
      if i.bValid {
        if got == RESP_WORDS {
          registered := registered + [resbuf];
          inflight := inflight - 1;
          occupied := false;
          rsp := RespInactive;
        } else {
          rsp := RecheckValidAddr;
        }
      }
    }

    method ReadWord(i: Inputs)
      requires Bounded(Abs()) && rsp in {RespBitsAddr, RespBitsRead, RespReadyAddr}
      modifies this`rsp, this`resbuf, this`got, this`wires
      ensures Abs() == ReadBits(old(Abs()), i)
    {
      if rsp == RespBitsAddr {
        wires := wires.(ar := Some(RespBits));
        if i.arReady {
          rsp := RespBitsRead;
        }
      } else if rsp == RespBitsRead {
        wires := wires.(rReady := true);
        if i.rValid {
          resbuf := resbuf[got := i.rData];
          got := got + 1;
          rsp := RespReadyAddr;
        }
      } else {
        wires := wires.(aw := Some(RespReady));
        if i.awReady {
          rsp := RespReadyWrite;
        }
      }
    }

    method OfferAcknowledge(i: Inputs)
      requires Bounded(Abs()) && rsp == RespReadyWrite
      modifies this`rsp, this`wires
      ensures Abs() == OfferReady(old(Abs()), i)
    {
      wires := wires.(w := Some(1));
      if i.wReady {
        rsp := RespReadyWriteB;
      }
    }

    method AskValid(i: Inputs)
      requires Bounded(Abs()) && rsp in {RecheckValidAddr, RecheckValidRead}
      modifies this`rsp, this`wires
      ensures Abs() == RecheckValid(old(Abs()), i)
    {
      if rsp == RecheckValidAddr {
        wires := wires.(ar := Some(RespValid));
        if i.arReady {
          rsp := RecheckValidRead;
        }
      } else {
        wires := wires.(rReady := true);
        if i.rValid {
          if i.rData != 0 {
            rsp := RespBitsAddr;
          } else {
            rsp := RecheckValidAddr;
          }
        }
      }
    }

    method RunResp(i: Inputs)
      requires Bounded(Abs())
      modifies this`rsp, this`resbuf, this`got, this`occupied, this`inflight, this`wires, this`registered
      ensures Abs() == RespStep(old(Abs()), i)
    {
      hide ReadBits, OfferReady, RecheckValid, ResponseStep;
      match rsp {
        case RespInactive =>
        case RespBitsAddr | RespBitsRead | RespReadyAddr => ReadWord(i);
        case RespReadyWrite =>
          OfferAcknowledge(i);
          AwaitAcknowledge(i);
        case RespReadyWriteB => AwaitAcknowledge(i);
        case RecheckValidAddr | RecheckValidRead => AskValid(i);
      }
    }

    method UpdateRespState(i: Inputs)
      requires Bounded(Abs())
      modifies this`rsp, this`resbuf, this`got, this`occupied, this`inflight, this`wires, this`registered
      ensures Abs() == RespStep(old(Abs()), i)
      // it drives at most one of AW, W and AR, and only off idle
      ensures Driven(wires) <= Driven(old(wires)) + if old(rsp) == RespInactive then 0 else 1
      // it frees the bus exactly when it hands a response on
      ensures old(rsp) != RespInactive ==>
        && occupied == (old(occupied) && rsp != RespInactive)
        && registered == if rsp == RespInactive then old(registered) + [old(resbuf)] else old(registered)
    {
      RespDrives(Abs(), i);
      RespBus(Abs(), i);
      hide RespStep, Driven;
      RunResp(i);
    }

    method BeginPoll(poll: UpdateState)
      requires Bounded(Abs())
      modifies this`update, this`occupied, this`counter
      ensures Abs() == StartPoll(old(Abs()), poll)
    {
      if !occupied && counter > CHECK_FREQ {
        counter := 0;
        occupied := true;
        update := poll;
      } else {
        counter := counter + 1;
      }
    }

    method AskResponse(i: Inputs)
      requires Bounded(Abs()) && update in {PollRespAddr, PollRespWait}
      modifies this`rsp, this`got, this`update, this`occupied, this`wires
      ensures Abs() == PollResponse(old(Abs()), i)
    {
      if update == PollRespAddr {
        wires := wires.(ar := Some(RespValid));
        if i.arReady {
          update := PollRespWait;
        }
      } else {
        wires := wires.(rReady := true);
        if i.rValid {
          got := 0;
          if i.rData != 0 {
            rsp := RespBitsAddr;
          } else {
            occupied := false;
          }
          update := IdleCmd;
        }
      }
    }

    method AskCommandReady(i: Inputs)
      requires Bounded(Abs()) && update in {PollCmdAddr, PollCmdWait}
      modifies this`readyForCommand, this`update, this`occupied, this`wires
      ensures Abs() == PollReady(old(Abs()), i)
    {
      if update == PollCmdAddr {
        wires := wires.(ar := Some(CmdReady));
        if i.arReady {
          update := PollCmdWait;
        }
      } else {
        wires := wires.(rReady := true);
        if i.rValid {
          readyForCommand := i.rData != 0;
          if inflight > 0 {
            update := IdleResp;
          } else {
            update := IdleCmd;
          }
        }
        occupied := false;
      }
    }

    method UpdateUpdateState(i: Inputs)
      requires Bounded(Abs())
      modifies this`readyForCommand, this`rsp, this`got, this`update, this`occupied, this`counter, this`wires
      ensures Abs() == UpdateStep(old(Abs()), i)
      // it drives at most one of AW, W and AR, and only off idle
      ensures Driven(wires) <= Driven(old(wires)) + if Idle(old(update)) then 0 else 1
      // it polls only on a free bus, and frees it when the poll finds nothing or waits for CMD_READY
      ensures Idle(old(update)) && !Idle(update) ==> !old(occupied) && occupied && old(counter) > CHECK_FREQ
      ensures !Idle(old(update)) ==>
        occupied == (old(update) != PollCmdWait && old(occupied) && !(Idle(update) && i.rData == 0))
    {
      UpdateDrives(Abs(), i);
      UpdateBus(Abs(), i);
      hide StartPoll, PollResponse, PollReady, Driven;
      match update {
        case IdleResp => BeginPoll(PollRespAddr);
        case IdleCmd => BeginPoll(PollCmdAddr);
        case PollRespAddr | PollRespWait => AskResponse(i);
        case PollCmdAddr | PollCmdWait => AskCommandReady(i);
      }
    }

    method ClearAndFetch(i: Inputs)
      requires Bounded(Abs()) && Packed(i)
      modifies this`wires, this`cmds
      ensures Abs() == old(Abs()).(wires := QUIET, cmds := old(cmds) + i.arrived) && Bounded(Abs())
    {
      wires := QUIET;
      cmds := cmds + i.arrived;
    }

    method Step(i: Inputs)
      requires Bounded(Abs()) && Packed(i)
      modifies this
      ensures Abs() == AxiLite.Tick(old(Abs()), i) && monitor == old(monitor)
    {
      hide CommandStep, RespStep, UpdateStep, Bounded, Packed;
      ClearAndFetch(i);
      UpdateCommandState(i);
      UpdateRespState(i);
      UpdateUpdateState(i);
    }

    method Tick(i: Inputs)
      requires Valid() && Packed(i)
      modifies this
      ensures Valid() && Abs() == AxiLite.Tick(old(Abs()), i) && monitor == Observe(old(monitor), wires, i)
    {
      TickInv(Abs(), monitor, i);
      hide Exclusive, PollExpected, CollectExpected, PollTrace, CollectTrace, PendingAw, PendingW, PendingAr,
           AxiLite.Tick, Observe;
      Step(i);
      monitor := Observe(monitor, wires, i);
    }
  }
}
