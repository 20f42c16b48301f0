/** One bank: its row state, its row-hit counter and the earliest cycle at which it takes
    each command type (runtime/DRAMsim3/src/bankstate.cc). Banks are held by value. */
module Banks {
  import opened Common
  import opened Timing
  import opened Options

  datatype State = Open | Closed | Sref

  type Timers = m: map<CommandType, int> | forall ty: CommandType :: ty in m witness map ty: CommandType | true :: 0

  datatype BankState = BankState(state: State, timing: Timers, openRow: int, rowHits: nat)

  const FRESH := BankState(Closed, map ty: CommandType | true :: 0, -1, 0)

  /** The command type a request of type `ty` for `row` needs next, or None where the
      source prints "Unknown type!" and exits. */
  function Required(b: BankState, ty: CommandType, row: int): Option<CommandType> {
    match b.state
    case Closed =>
      if IsReadWrite(ty) then Some(Activate)
      else if IsRefresh(ty) || ty == SrefEnter then Some(ty)
      else None
    case Open =>
      if IsReadWrite(ty) then Some(if row == b.openRow then ty else Precharge)
      else if IsRefresh(ty) || ty == SrefEnter then Some(Precharge)
      else None
    case Sref =>
      if IsReadWrite(ty) then Some(SrefExit) else None
  }

  function GetReadyCommand(b: BankState, cmd: Command, clk: int): Pick {
    match Required(b, cmd.ty, cmd.addr.row)
    case None => Abort
    case Some(ty) => if clk >= b.timing[ty] then Issue(Command(ty, cmd.addr, cmd.hexAddr)) else Wait
  }

  /** Row state after `cmd`, or None where the source exits. */
  function UpdateState(b: BankState, cmd: Command): Option<BankState> {
    match b.state
    case Open =>
      (match cmd.ty
       case Read | Write => Some(b.(rowHits := b.rowHits + 1))
       case ReadPrecharge | WritePrecharge | Precharge => Some(b.(state := Closed, openRow := -1, rowHits := 0))
       case _ => None)
    case Closed =>
      (match cmd.ty
       case Refresh | RefreshBank => Some(b)
       case Activate => Some(b.(state := Open, openRow := cmd.addr.row))
       case SrefEnter => Some(b.(state := Sref))
       case _ => None)
    case Sref =>
      if cmd.ty == SrefExit then Some(b.(state := Closed)) else None
  }

  function UpdateTiming(b: BankState, ty: CommandType, time: int): BankState {
    b.(timing := b.timing[ty := Max(b.timing[ty], time)])
  }

  /** All entries of a table applied to one bank, in table order. */
  function ApplyTable(b: BankState, table: seq<Entry>, clk: int): BankState
    decreases |table|
  {
    if table == [] then b
    else ApplyTable(UpdateTiming(b, table[0].ty, clk + table[0].delay), table[1..], clk)
  }

  /** The table applied at `clk` puts a timer of `ty` to `time`. */
  ghost predicate Puts(table: seq<Entry>, clk: int, ty: CommandType, time: int) {
    exists i :: 0 <= i < |table| && table[i].ty == ty && time == clk + table[i].delay
  }

  /** A table only ever pushes timers up, to at least every entry and to nothing above
      the entries, and leaves the row state alone. */
  lemma {:induction false} ApplyTableTimers(b: BankState, table: seq<Entry>, clk: int)
    ensures var r := ApplyTable(b, table, clk);
      && r == b.(timing := r.timing)
      && (forall ty: CommandType :: b.timing[ty] <= r.timing[ty])
      && (forall i :: 0 <= i < |table| ==> clk + table[i].delay <= r.timing[table[i].ty])
      && (forall ty: CommandType :: r.timing[ty] == b.timing[ty] || Puts(table, clk, ty, r.timing[ty]))
    decreases |table|
  {
    if table != [] {
      var b1 := UpdateTiming(b, table[0].ty, clk + table[0].delay);
      ApplyTableTimers(b1, table[1..], clk);
      var r := ApplyTable(b1, table[1..], clk);
      assert r == ApplyTable(b, table, clk);
      hide ApplyTable;
      forall i | 0 <= i < |table| ensures clk + table[i].delay <= r.timing[table[i].ty] {
        if i > 0 { assert table[i] == table[1..][i - 1]; }
      }
      forall ty: CommandType ensures r.timing[ty] == b.timing[ty] || Puts(table, clk, ty, r.timing[ty]) {
        if r.timing[ty] != b1.timing[ty] {
          assert Puts(table[1..], clk, ty, r.timing[ty]);
          PutsLater(table, clk, ty, r.timing[ty]);
        } else if ty == table[0].ty && r.timing[ty] != b.timing[ty] {
          assert table[0].ty == ty;
        }
      }
    }
  }

  lemma PutsLater(table: seq<Entry>, clk: int, ty: CommandType, time: int)
    requires table != [] && Puts(table[1..], clk, ty, time)
    ensures Puts(table, clk, ty, time)
  {
    var i :| 0 <= i < |table[1..]| && table[1..][i].ty == ty && time == clk + table[1..][i].delay;
    assert table[i + 1].ty == ty;
  }
}
