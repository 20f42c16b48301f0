/** A run of the control machine that reaches the skipped acknowledgement: a command with a response
    goes out, the response is found, and the hardware answers its first acknowledgement too early. */
module AxiLiteReach {
  import opened AxiLite
  import opened AxiLiteProofs

  ghost predicate Reachable(s: Control) {
    exists inputs :: (forall k :: 0 <= k < |inputs| ==> Packed(inputs[k])) && Run(inputs).s == s
  }

  /** Hardware that is always ready and always reads 1, and the commands that arrive. */
  function Eager(arrived: seq<Command>): Inputs { Inputs(true, true, true, true, true, 1, arrived) }

  lemma Go(s: Control, i: Inputs)
    requires Reachable(s) && Packed(i)
    ensures Bounded(s) && Reachable(Tick(s, i))
  {
    hide Run, Inv, Tick, Observe, Packed, Bounded;
    var inputs :| (forall k :: 0 <= k < |inputs| ==> Packed(inputs[k])) && Run(inputs).s == s;
    var more := inputs + [i];
    assert more[..|inputs|] == inputs;
    RunTick(more);
  }

  /** Nothing is under way and nothing can start but a poll. */
  predicate Resting(s: Control, update: UpdateState, counter: int, inflight: int) {
    && s.cmd == CmdInactive && s.rsp == RespInactive && s.update == update && Idle(update) && !s.occupied
    && s.counter == counter && s.inflight == inflight && s.cmds == []
  }

  predicate Polling(s: Control, update: UpdateState, inflight: int) {
    && s.cmd == CmdInactive && s.rsp == RespInactive && s.update == update && s.occupied
    && s.counter == 0 && s.inflight == inflight && s.cmds == []
  }

  /** Left alone, a resting machine starts its poll. */
  lemma {:induction false} PollStarts(s: Control, update: UpdateState, counter: int, inflight: int)
    returns (s': Control)
    requires Reachable(s) && Resting(s, update, counter, inflight) && counter <= CHECK_FREQ + 1
    ensures Reachable(s') && Polling(s', if update == IdleCmd then PollCmdAddr else PollRespAddr, inflight)
    decreases CHECK_FREQ + 1 - counter
  {
    hide Reachable;
    Go(s, Eager([]));
    s' := Tick(s, Eager([]));
    if counter <= CHECK_FREQ { s' := PollStarts(s', update, counter + 1, inflight); }
  }

  lemma PollAnswered(s: Control, inflight: int) returns (s': Control)
    requires Reachable(s) && Polling(s, PollCmdAddr, inflight)
    ensures Reachable(s') && Resting(s', if inflight > 0 then IdleResp else IdleCmd, 0, inflight) && s'.readyForCommand
  {
    hide Reachable;
    Go(s, Eager([]));
    var s1 := Tick(s, Eager([]));
    assert s1.update == PollCmdWait && s1.cmds == [];
    Go(s1, Eager([]));
    s' := Tick(s1, Eager([]));
  }

  predicate Handing(s: Control, progress: int, counter: int) {
    && s.cmd == BitsAddr && s.rsp == RespInactive && s.update == IdleCmd && s.occupied
    && s.progress == progress && s.counter == counter && s.inflight == 1 && s.cmds == []
  }

  lemma CommandTaken(s: Control, c: Command) returns (s': Control)
    requires Reachable(s) && Resting(s, IdleCmd, 0, 0) && s.readyForCommand && |c.words| == CMD_WORDS && c.xd
    ensures Reachable(s') && Handing(s', 0, 1)
  {
    hide Reachable;
    Go(s, Eager([c]));
    s' := Tick(s, Eager([c]));
  }

  /** Six ticks hand one word over. */
  lemma WordHanded(s: Control, progress: int, counter: int) returns (s': Control)
    requires Reachable(s) && Handing(s, progress, counter) && 0 <= progress < CMD_WORDS && counter <= CHECK_FREQ - 6
    ensures Reachable(s') && s'.rsp == RespInactive && s'.update == IdleCmd && s'.counter == counter + 6
    ensures s'.inflight == 1 && s'.cmds == []
    ensures if progress + 1 == CMD_WORDS then s'.cmd == CmdInactive && !s'.occupied
            else s'.cmd == RecheckReadyAddr && s'.occupied && s'.progress == progress + 1
  {
    hide Reachable;
    var s3 := BitsHanded(s, progress, counter);
    Go(s3, Eager([]));
    var s4 := Tick(s3, Eager([]));
    assert s4.cmd == ValidDat && s4.cmds == [];
    Go(s4, Eager([]));
    var s5 := Tick(s4, Eager([]));
    assert s5.cmd == ValidB && s5.cmds == [];
    Go(s5, Eager([]));
    s' := Tick(s5, Eager([]));
  }

  lemma BitsHanded(s: Control, progress: int, counter: int) returns (s': Control)
    requires Reachable(s) && Handing(s, progress, counter)
    ensures Reachable(s') && s'.cmd == ValidAddr && s'.rsp == RespInactive && s'.update == IdleCmd && s'.occupied
    ensures s'.progress == progress && s'.counter == counter + 3 && s'.inflight == 1 && s'.cmds == []
  {
    hide Reachable;
    Go(s, Eager([]));
    var s1 := Tick(s, Eager([]));
    assert s1.cmd == BitsDat && s1.cmds == [];
    Go(s1, Eager([]));
    var s2 := Tick(s1, Eager([]));
    assert s2.cmd == BitsB && s2.cmds == [];
    Go(s2, Eager([]));
    s' := Tick(s2, Eager([]));
  }

  lemma {:induction false} CommandHanded(s: Control, progress: int) returns (s': Control)
    requires Reachable(s) && Handing(s, progress, 1 + 8 * progress) && 0 <= progress < CMD_WORDS
    ensures Reachable(s') && Resting(s', IdleCmd, 39, 1)
    decreases CMD_WORDS - progress
  {
    hide Reachable;
    s' := WordHanded(s, progress, 1 + 8 * progress);
    if progress + 1 < CMD_WORDS {
      Go(s', Eager([]));
      var s1 := Tick(s', Eager([]));
      assert s1.cmd == RecheckReadyDat && s1.cmds == [];
      Go(s1, Eager([]));
      s' := CommandHanded(Tick(s1, Eager([])), progress + 1);
    }
  }

  /** From the found response to the offer of its first acknowledgement. */
  lemma AcknowledgeOffered(s: Control) returns (s': Control)
    requires Reachable(s) && Polling(s, PollRespAddr, 1)
    ensures Reachable(s') && s'.rsp == RespReadyWrite
  {
    hide Reachable;
    Go(s, Eager([]));
    var s1 := Tick(s, Eager([]));
    assert s1.update == PollRespWait && s1.cmds == [];
    Go(s1, Eager([]));
    var s2 := Tick(s1, Eager([]));
    assert s2.rsp == RespBitsAddr && s2.cmds == [] && s2.cmd == CmdInactive && s2.update == IdleCmd;
    s' := WordRead(s2);
  }

  lemma WordRead(s: Control) returns (s': Control)
    requires Reachable(s) && s.rsp == RespBitsAddr && s.cmds == [] && s.cmd == CmdInactive && s.update == IdleCmd
    requires s.occupied
    ensures Reachable(s') && s'.rsp == RespReadyWrite
  {
    hide Reachable;
    Go(s, Eager([]));
    var s1 := Tick(s, Eager([]));
    assert s1.rsp == RespBitsRead && s1.cmds == [] && s1.cmd == CmdInactive && s1.update == IdleCmd;
    Go(s1, Eager([]));
    var s2 := Tick(s1, Eager([]));
    assert s2.rsp == RespReadyAddr && s2.cmds == [] && s2.cmd == CmdInactive && s2.update == IdleCmd;
    Go(s2, Eager([]));
    s' := Tick(s2, Eager([]));
  }

  lemma StartReachable()
    ensures Reachable(Initial()) && Resting(Initial(), IdleCmd, 0, 0)
  {
    assert Run([]).s == Initial();
  }

  lemma OfferReachable() returns (s: Control)
    ensures Reachable(s) && s.rsp == RespReadyWrite
  {
    hide Reachable, Initial;
    StartReachable();
    s := PollStarts(Initial(), IdleCmd, 0, 0);
    s := PollAnswered(s, 0);
    s := CommandTaken(s, Command([0, 0, 0, 0, 0], true));
    s := CommandHanded(s, 0);
    s := PollStarts(s, IdleCmd, 39, 1);
    s := PollAnswered(s, 1);
    s := PollStarts(s, IdleResp, 0, 1);
    s := AcknowledgeOffered(s);
  }

  /** Some run skips an acknowledgement. */
  lemma SkippedAcknowledgement() returns (inputs: seq<Inputs>)
    ensures (forall k :: 0 <= k < |inputs| ==> Packed(inputs[k])) && Skipped(Run(inputs).m)
  {
    hide Run;
    var s := OfferReachable();
    var before :| (forall k :: 0 <= k < |before| ==> Packed(before[k])) && Run(before).s == s;
    var early := Eager([]).(wReady := false);
    inputs := before + [early];
    assert inputs[..|before|] == before;
    assert AnsweredEarly(inputs, |before|);
    Unacknowledged(inputs);
  }
}
