/** One bank: its row state machine and its table of earliest legal cycles (bankstate.cc).
    The simulator keeps banks by value inside the channel, so a bank is a value here too. */
module Bank {
  import opened Basics
  import opened DramTypes
  import opened Timing

  datatype RowState = Closed | Open | SelfRefresh

  /** One slot per command type. */
  type Table = t: seq<nat> | |t| == 10 witness seq(10, _ => 0)

  datatype BankState = BankState(state: RowState, openRow: int, rowHits: nat, timing: Table) {
    predicate IsRowOpen() {
      state.Open?
    }
  }

  const FRESH_BANK := BankState(Closed, -1, 0, seq(10, _ => 0))

  function Slot(kind: CommandType): (i: nat)
    ensures i < 10
  {
    match kind
    case Read => 0
    case ReadPrecharge => 1
    case Write => 2
    case WritePrecharge => 3
    case Activate => 4
    case Precharge => 5
    case RefreshBank => 6
    case Refresh => 7
    case SrefEnter => 8
    case SrefExit => 9
  }

  /** The command the bank needs next in order to serve `cmd`. */
  function Required(b: BankState, cmd: Command): Result<CommandType> {
    match b.state
    case Closed =>
      if cmd.kind.IsReadWrite() then Ok(Activate)
      else if cmd.kind.IsRefresh() || cmd.kind.SrefEnter? then Ok(cmd.kind)
      else Abort
    case Open =>
      if cmd.kind.IsReadWrite() then Ok(if cmd.addr.row == b.openRow then cmd.kind else Precharge)
      else if cmd.kind.IsRefresh() || cmd.kind.SrefEnter? then Ok(Precharge)
      else Abort
    case SelfRefresh =>
      if cmd.kind.IsReadWrite() then Ok(SrefExit) else Abort
  }

  /** That command, if its earliest legal cycle has come. */
  function ReadyCommand(b: BankState, cmd: Command, clk: nat): Result<Option<Command>> {
    var kind :- Required(b, cmd);
    Ok(if clk >= b.timing[Slot(kind)] then Some(Command(kind, cmd.addr, cmd.hexAddr)) else None)
  }

  function UpdateState(b: BankState, cmd: Command): Result<BankState> {
    match b.state
    case Open =>
      (match cmd.kind
       case Read => Ok(b.(rowHits := b.rowHits + 1))
       case Write => Ok(b.(rowHits := b.rowHits + 1))
       case ReadPrecharge => Ok(b.(state := Closed, openRow := -1, rowHits := 0))
       case WritePrecharge => Ok(b.(state := Closed, openRow := -1, rowHits := 0))
       case Precharge => Ok(b.(state := Closed, openRow := -1, rowHits := 0))
       case _ => Abort)
    case Closed =>
      (match cmd.kind
       case Refresh => Ok(b)
       case RefreshBank => Ok(b)
       case Activate => Ok(b.(state := Open, openRow := cmd.addr.row))
       case SrefEnter => Ok(b.(state := SelfRefresh))
       case _ => Abort)
    case SelfRefresh =>
      if cmd.kind.SrefExit? then Ok(b.(state := Closed)) else Abort
  }

  function UpdateTiming(t: Table, kind: CommandType, time: nat): Table {
    t[Slot(kind) := Max(t[Slot(kind)], time)]
  }

  /** Applies every gap of a list, in order, for a command issued at `clk`. */
  function Raise(t: Table, gaps: seq<Gap>, clk: nat): Table {
    if gaps == [] then t
    else
      var n := |gaps| - 1;
      UpdateTiming(Raise(t, gaps[..n], clk), gaps[n].next, Deadline(clk, gaps[n].cycles))
  }

  /** The latest deadline a gap list gives to commands of type `kind`; 0 if it names none. */
  function LatestDeadline(gaps: seq<Gap>, kind: CommandType, clk: nat): nat {
    if gaps == [] then 0
    else
      var n := |gaps| - 1;
      var rest := LatestDeadline(gaps[..n], kind, clk);
      if gaps[n].next == kind then Max(rest, Deadline(clk, gaps[n].cycles)) else rest
  }

  lemma {:induction false} RaiseSlot(t: Table, gaps: seq<Gap>, clk: nat, kind: CommandType)
    ensures Raise(t, gaps, clk)[Slot(kind)] == Max(t[Slot(kind)], LatestDeadline(gaps, kind, clk))
  {
    if gaps != [] {
      RaiseSlot(t, gaps[..|gaps| - 1], clk, kind);
    }
  }

  /** The latest deadline is an upper bound of the named gaps, and one of them attains it. */
  lemma {:induction false} LatestDeadlineIsMaximum(gaps: seq<Gap>, kind: CommandType, clk: nat)
    ensures forall g :: g in gaps && g.next == kind ==> Deadline(clk, g.cycles) <= LatestDeadline(gaps, kind, clk)
    ensures LatestDeadline(gaps, kind, clk) == 0
            || exists g :: g in gaps && g.next == kind && Deadline(clk, g.cycles) == LatestDeadline(gaps, kind, clk)
  {
    if gaps != [] {
      var n := |gaps| - 1;
      LatestDeadlineIsMaximum(gaps[..n], kind, clk);
      assert gaps == gaps[..n] + [gaps[n]];
      assert gaps[n] in gaps;
      forall g | g in gaps && g.next == kind
        ensures Deadline(clk, g.cycles) <= LatestDeadline(gaps, kind, clk)
      {
        assert g in gaps[..n] || g == gaps[n];
      }
      var rest := LatestDeadline(gaps[..n], kind, clk);
      if LatestDeadline(gaps, kind, clk) != 0 && rest == LatestDeadline(gaps, kind, clk) {
        var g :| g in gaps[..n] && g.next == kind && Deadline(clk, g.cycles) == rest;
        assert g in gaps;
      }
    }
  }

  /** The bank never rejects the command it has just declared ready. */
  lemma ReadyIsLegal(b: BankState, cmd: Command, clk: nat)
    requires ReadyCommand(b, cmd, clk).Ok? && ReadyCommand(b, cmd, clk).value.Some?
    ensures UpdateState(b, ReadyCommand(b, cmd, clk).value.value).Ok?
  {
  }
}
