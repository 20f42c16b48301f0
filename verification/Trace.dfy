/** What a DRAM command trace has to satisfy, stated over the trace alone: which row each
    bank holds open after it, which command may come next, and the delays between commands.
    The controller writes this trace when CMD_TRACE is defined
    (runtime/DRAMsim3/src/controller.cc:229-232). */
module Trace {
  import opened Common
  import opened Timing
  import opened Options

  datatype Issued = Issued(clk: int, cmd: Command)

  /** The row bank `b` holds open after `log`: that of its latest ACTIVATE, unless a
      precharge or an access with auto-precharge came later. */
  function RowAfter(cfg: Config, log: seq<Issued>, b: BankId): Option<int> {
    if log == [] then None
    else
      var cmd := log[|log| - 1].cmd;
      if Covers(cfg, cmd, b) && cmd.ty == Activate then Some(cmd.addr.row)
      else if Covers(cfg, cmd, b) && cmd.ty in {ReadPrecharge, WritePrecharge, Precharge} then None
      else RowAfter(cfg, log[..|log| - 1], b)
  }

  /** Section 4 of JEDEC JESD79-4: activate a closed bank, access the open row, precharge an
      open bank, refresh closed banks only. */
  ghost predicate LegalNext(cfg: Config, log: seq<Issued>, cmd: Command) {
    && (IsRankCommand(cmd.ty) ==> 0 <= cmd.addr.rank < cfg.ranks)
    && (!IsRankCommand(cmd.ty) ==> ValidBank(cfg, BankOf(cmd.addr)))
    && cmd.ty != SrefEnter && cmd.ty != SrefExit
    && forall b :: Covers(cfg, cmd, b) ==>
         if IsReadWrite(cmd.ty) then RowAfter(cfg, log, b) == Some(cmd.addr.row)
         else if cmd.ty == Precharge then RowAfter(cfg, log, b).Some?
         else RowAfter(cfg, log, b) == None
  }

  ghost predicate Legal(cfg: Config, log: seq<Issued>) {
    forall i :: 0 <= i < |log| ==> LegalNext(cfg, log[..i], log[i].cmd)
  }

  /** `later` keeps every delay that the table consulted for `first` asks of it. */
  ghost predicate Spaced(cfg: Config, first: Issued, later: Issued) {
    forall b, e :: Covers(cfg, later.cmd, b) && e in Consulted(cfg, first.cmd, b) && e.ty == later.cmd.ty
      ==> later.clk >= first.clk + e.delay
  }

  /** One command per cycle at most, and every ordered pair of commands is spaced. */
  ghost predicate Timed(cfg: Config, log: seq<Issued>) {
    forall i, j :: 0 <= i < j < |log| ==> log[i].clk < log[j].clk && Spaced(cfg, log[i], log[j])
  }

  /** The cycles at which ACTIVATEs went to a rank, in order. */
  function Activations(log: seq<Issued>, rank: int): seq<int> {
    if log == [] then []
    else
      var last := log[|log| - 1];
      Activations(log[..|log| - 1], rank)
      + if last.cmd.ty == Activate && last.cmd.addr.rank == rank then [last.clk] else []
  }

  /** Among any `n` + 1 successive entries the last is at least `span` after the first. */
  predicate Windowed(times: seq<int>, n: nat, span: int) {
    forall k :: 0 <= k && k + n < |times| ==> times[k + n] >= times[k] + span
  }

  ghost predicate ActivationsSpread(cfg: Config, log: seq<Issued>) {
    forall rank :: 0 <= rank < cfg.ranks ==>
      && Windowed(Activations(log, rank), 4, cfg.tFAW)
      && (cfg.IsGDDR() ==> Windowed(Activations(log, rank), 32, cfg.t32AW))
  }

  ghost predicate TraceOk(cfg: Config, log: seq<Issued>) {
    Legal(cfg, log) && Timed(cfg, log) && ActivationsSpread(cfg, log)
  }
}
