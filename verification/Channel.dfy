/** The channel: all banks, the refresh queue and the activation windows (channel_state.cc).
    Functions on the value `Channel` say what each operation computes; the class
    `ChannelState` carries them out with the source's loops. */
module Channel {
  import opened Basics
  import opened DramTypes
  import opened Timing
  import opened Bank

  datatype Channel = Channel(
    banks: map<BankId, BankState>,
    refreshQ: seq<Command>,
    fourAw: seq<seq<nat>>,
    thirtyTwoAw: seq<seq<nat>>)

  /** Every bank of the geometry is present, and every rank has its two window lists. */
  ghost predicate ValidChannel(cfg: Config, ch: Channel) {
    && cfg.WellFormed()
    && (forall b :: b in ch.banks <==> cfg.HasBank(b))
    && |ch.fourAw| == cfg.ranks
    && |ch.thirtyTwoAw| == cfg.ranks
  }

  /** The command's coordinates index into the channel. */
  predicate Addressed(cfg: Config, cmd: Command) {
    if cmd.kind.IsRankCommand() then 0 <= cmd.addr.rank < cfg.ranks else cfg.HasBank(cmd.Bank())
  }

  function RefreshRankCommand(rank: int): Command {
    Command(Refresh, Address(-1, rank, -1, -1, -1, -1), NO_HEX_ADDR)
  }

  function RefreshBankCommand(b: BankId): Command {
    Command(RefreshBank, Address(-1, b.rank, b.group, b.bank, -1, -1), NO_HEX_ADDR)
  }

  // ---------------------------------------------------------------- activation windows

  predicate WindowOk(window: seq<nat>, limit: nat, clk: nat) {
    !(|window| > 0 && clk < window[0] && |window| >= limit)
  }

  /** Drops at most one expired entry, then records the new activation. */
  function PushWindow(window: seq<nat>, cycles: int, clk: nat): seq<nat> {
    (if |window| > 0 && clk >= window[0] then window[1..] else window) + [Deadline(clk, cycles)]
  }

  predicate ActivationWindowOk(cfg: Config, ch: Channel, rank: int, clk: nat)
    requires |ch.fourAw| == |ch.thirtyTwoAw| == cfg.ranks
    requires 0 <= rank < cfg.ranks
  {
    && WindowOk(ch.fourAw[rank], 4, clk)
    && (cfg.IsGDDR() ==> WindowOk(ch.thirtyTwoAw[rank], 32, clk))
  }

  function RecordActivation(cfg: Config, ch: Channel, rank: int, clk: nat): Channel
    requires |ch.fourAw| == |ch.thirtyTwoAw| == cfg.ranks
    requires 0 <= rank < cfg.ranks
  {
    ch.(fourAw := ch.fourAw[rank := PushWindow(ch.fourAw[rank], cfg.tFAW, clk)],
    thirtyTwoAw := if cfg.IsGDDR()
    then ch.thirtyTwoAw[rank := PushWindow(ch.thirtyTwoAw[rank], cfg.t32AW, clk)]
    else ch.thirtyTwoAw)
  }

  // ---------------------------------------------------------------- ready commands

  /** A rank command looks at the banks in order: the first one that needs something else
      first (a precharge) decides, otherwise every bank has to be ready. `j` and `k` are the
      next bank group and bank, `ready` the number of banks found ready so far. */
  function RankReady(cfg: Config, ch: Channel, cmd: Command, clk: nat, j: nat, k: nat, ready: nat)
    : Result<Option<Command>>
    requires ValidChannel(cfg, ch) && 0 <= cmd.addr.rank < cfg.ranks
    requires j <= cfg.bankgroups && k <= cfg.banksPerGroup
    decreases cfg.bankgroups - j, cfg.banksPerGroup - k
  {
    if j == cfg.bankgroups then
      Ok(if ready == cfg.Banks() then Some(cmd) else None)
    else if k == cfg.banksPerGroup then
      RankReady(cfg, ch, cmd, clk, j + 1, 0, ready)
    else
      var r :- ReadyCommand(ch.banks[BankId(cmd.addr.rank, j, k)], cmd, clk);
      match r
      case None => RankReady(cfg, ch, cmd, clk, j, k + 1, ready)
      case Some(c) =>
        if c.kind != cmd.kind then
          Ok(Some(Command(c.kind, Address(-1, cmd.addr.rank, j, k, -1, -1), c.hexAddr)))
        else
          RankReady(cfg, ch, cmd, clk, j, k + 1, ready + 1)
  }

  function GetReady(cfg: Config, ch: Channel, cmd: Command, clk: nat): Result<Option<Command>>
    requires ValidChannel(cfg, ch) && Addressed(cfg, cmd)
  {
    if cmd.kind.IsRankCommand() then
      RankReady(cfg, ch, cmd, clk, 0, 0, 0)
    else
      var r :- ReadyCommand(ch.banks[cmd.Bank()], cmd, clk);
      Ok(if r.Some? && r.value.kind.Activate? && !ActivationWindowOk(cfg, ch, r.value.addr.rank, clk)
         then None else r)
  }

  // ---------------------------------------------------------------- state and timing updates

  /** Removes the first queued refresh of the rank. */
  function DropRank(q: seq<Command>, rank: int): seq<Command> {
    if q == [] then []
    else if q[0].addr.rank == rank then q[1..]
    else [q[0]] + DropRank(q[1..], rank)
  }

  /** Removes the first queued refresh of the bank. */
  function DropBank(q: seq<Command>, b: BankId): seq<Command> {
    if q == [] then []
    else if q[0].Bank() == b then q[1..]
    else [q[0]] + DropBank(q[1..], b)
  }

  function UpdateStates(cfg: Config, ch: Channel, cmd: Command): Result<Channel>
    requires ValidChannel(cfg, ch) && Addressed(cfg, cmd)
  {
    if cmd.kind.IsRankCommand() then
      if forall b :: b in ch.banks && b.rank == cmd.addr.rank ==> UpdateState(ch.banks[b], cmd).Ok? then
        Ok(ch.(banks := map b | b in ch.banks ::
             if b.rank == cmd.addr.rank then UpdateState(ch.banks[b], cmd).value else ch.banks[b],
             refreshQ := if cmd.kind.Refresh? then DropRank(ch.refreshQ, cmd.addr.rank) else ch.refreshQ))
      else Abort
    else
      var next :- UpdateState(ch.banks[cmd.Bank()], cmd);
      Ok(ch.(banks := ch.banks[cmd.Bank() := next],
         refreshQ := if cmd.kind.RefreshBank? then DropBank(ch.refreshQ, cmd.Bank()) else ch.refreshQ))
  }

  function RaiseBank(bank: BankState, gaps: seq<Gap>, clk: nat): BankState {
    bank.(timing := Raise(bank.timing, gaps, clk))
  }

  function UpdateTimings(cfg: Config, ch: Channel, cmd: Command, clk: nat): Channel
    requires ValidChannel(cfg, ch) && Addressed(cfg, cmd)
  {
    var windowed := if cmd.kind.Activate? then RecordActivation(cfg, ch, cmd.addr.rank, clk) else ch;
    windowed.(banks := map b | b in ch.banks :: RaiseBank(ch.banks[b], Constraints(cfg, cmd, b), clk))
  }

  /** UpdateTimingAndStates. */
  function Issue(cfg: Config, ch: Channel, cmd: Command, clk: nat): (r: Result<Channel>)
    requires ValidChannel(cfg, ch) && Addressed(cfg, cmd)
    ensures r.Ok? ==> ValidChannel(cfg, r.value)
  {
    var stated :- UpdateStates(cfg, ch, cmd);
    Ok(UpdateTimings(cfg, stated, cmd, clk))
  }

  function InitialChannel(cfg: Config): Channel {
    Channel(
      map r, j, k | 0 <= r < cfg.ranks && 0 <= j < cfg.bankgroups && 0 <= k < cfg.banksPerGroup
        :: BankId(r, j, k) := FRESH_BANK,
      [],
      seq(cfg.ranks, _ => []),
      seq(cfg.ranks, _ => []))
  }

  // ---------------------------------------------------------------- the class

  class ChannelState {
    const cfg: Config
    var banks: map<BankId, BankState>
    var refreshQ: seq<Command>
    var fourAw: seq<seq<nat>>
    var thirtyTwoAw: seq<seq<nat>>

    ghost function Abs(): Channel
      reads this
    {
      Channel(banks, refreshQ, fourAw, thirtyTwoAw)
    }

    ghost predicate Valid()
      reads this
    {
      ValidChannel(cfg, Abs())
    }

    constructor (cfg: Config)
      requires cfg.WellFormed()
      ensures this.cfg == cfg && Valid()
      ensures Abs() == InitialChannel(cfg)
    {
      this.cfg := cfg;
      banks := map[];
      refreshQ := [];
      fourAw := seq(cfg.ranks, _ => []);
      thirtyTwoAw := seq(cfg.ranks, _ => []);
      new;
      for i := 0 to cfg.ranks
        invariant refreshQ == [] && fourAw == thirtyTwoAw == seq(cfg.ranks, _ => [])
        invariant forall b :: b in banks <==> cfg.HasBank(b) && b.rank < i
        invariant forall b :: b in banks ==> banks[b] == FRESH_BANK
      {
        for j := 0 to cfg.bankgroups
          invariant refreshQ == [] && fourAw == thirtyTwoAw == seq(cfg.ranks, _ => [])
          invariant forall b :: b in banks <==> cfg.HasBank(b) && (b.rank < i || (b.rank == i && b.group < j))
          invariant forall b :: b in banks ==> banks[b] == FRESH_BANK
        {
          for k := 0 to cfg.banksPerGroup
            invariant refreshQ == [] && fourAw == thirtyTwoAw == seq(cfg.ranks, _ => [])
            invariant forall b :: b in banks <==>
                                  cfg.HasBank(b) && (b.rank < i || (b.rank == i && (b.group < j || (b.group == j && b.bank < k))))
            invariant forall b :: b in banks ==> banks[b] == FRESH_BANK
          {
            banks := banks[BankId(i, j, k) := FRESH_BANK];
          }
        }
      }
      assert banks == InitialChannel(cfg).banks;
    }

    method IsAllBankIdleInRank(rank: int) returns (idle: bool)
      requires Valid() && 0 <= rank < cfg.ranks
      ensures idle <==> forall b :: b in banks && b.rank == rank ==> !banks[b].IsRowOpen()
    {
      for j := 0 to cfg.bankgroups
        invariant forall b :: b in banks && b.rank == rank && b.group < j ==> !banks[b].IsRowOpen()
      {
        for k := 0 to cfg.banksPerGroup
          invariant forall b :: b in banks && b.rank == rank && (b.group < j || (b.group == j && b.bank < k))
                                ==> !banks[b].IsRowOpen()
        {
          if banks[BankId(rank, j, k)].IsRowOpen() {
            return false;
          }
        }
      }
      return true;
    }

    method BankNeedRefresh(b: BankId, need: bool)
      modifies this`refreshQ
      ensures refreshQ == if need then old(refreshQ) + [RefreshBankCommand(b)] else DropBank(old(refreshQ), b)
    {
      if need {
        refreshQ := refreshQ + [RefreshBankCommand(b)];
      } else {
        var i := 0;
        while i < |refreshQ|
          invariant 0 <= i <= |refreshQ| && refreshQ == old(refreshQ)
          invariant DropBank(refreshQ, b) == refreshQ[..i] + DropBank(refreshQ[i..], b)
        {
          if refreshQ[i].Bank() == b {
            refreshQ := refreshQ[..i] + refreshQ[i + 1..];
            return;
          }
          i := i + 1;
        }
      }
    }

    method RankNeedRefresh(rank: int, need: bool)
      modifies this`refreshQ
      ensures refreshQ == if need then old(refreshQ) + [RefreshRankCommand(rank)] else DropRank(old(refreshQ), rank)
    {
      if need {
        refreshQ := refreshQ + [RefreshRankCommand(rank)];
      } else {
        var i := 0;
        while i < |refreshQ|
          invariant 0 <= i <= |refreshQ| && refreshQ == old(refreshQ)
          invariant DropRank(refreshQ, rank) == refreshQ[..i] + DropRank(refreshQ[i..], rank)
        {
          if refreshQ[i].addr.rank == rank {
            refreshQ := refreshQ[..i] + refreshQ[i + 1..];
            return;
          }
          i := i + 1;
        }
      }
    }

    method GetReadyCommand(cmd: Command, clk: nat) returns (r: Result<Option<Command>>)
      requires Valid() && Addressed(cfg, cmd)
      ensures r == GetReady(cfg, Abs(), cmd, clk)
    {
      if !cmd.kind.IsRankCommand() {
        var ready :- ReadyCommand(banks[cmd.Bank()], cmd, clk);
        if ready.Some? && ready.value.kind.Activate? {
          if !ActivationWindowOk(cfg, Channel(banks, refreshQ, fourAw, thirtyTwoAw), ready.value.addr.rank, clk) {
            return Ok(None);
          }
        }
        return Ok(ready);
      }
      var numReady := 0;
      var last := None;
      ghost var seen := 0;
      for j := 0 to cfg.bankgroups
        invariant seen == j * cfg.banksPerGroup && numReady <= seen
        invariant numReady > 0 && numReady == seen ==> last == Some(cmd)
        invariant RankReady(cfg, Abs(), cmd, clk, 0, 0, 0) == RankReady(cfg, Abs(), cmd, clk, j, 0, numReady)
      {
        for k := 0 to cfg.banksPerGroup
          invariant seen == j * cfg.banksPerGroup + k && numReady <= seen
          invariant numReady > 0 && numReady == seen ==> last == Some(cmd)
          invariant RankReady(cfg, Abs(), cmd, clk, 0, 0, 0) == RankReady(cfg, Abs(), cmd, clk, j, k, numReady)
        {
          last :- ReadyCommand(banks[BankId(cmd.addr.rank, j, k)], cmd, clk);
          if last.Some? {
            if last.value.kind != cmd.kind {
              return Ok(Some(last.value.(addr := Address(-1, cmd.addr.rank, j, k, -1, -1))));
            }
            numReady := numReady + 1;
          }
          seen := seen + 1;
        }
        assert (j + 1) * cfg.banksPerGroup == j * cfg.banksPerGroup + cfg.banksPerGroup;
      }
      return Ok(if numReady == cfg.Banks() then last else None);
    }

    method UpdateState(cmd: Command) returns (r: Result<()>)
      requires Valid() && Addressed(cfg, cmd)
      modifies this`banks, this`refreshQ
      ensures r.Ok? <==> UpdateStates(cfg, old(Abs()), cmd).Ok?
      ensures r.Ok? ==> Abs() == UpdateStates(cfg, old(Abs()), cmd).value
    {
      if cmd.kind.IsRankCommand() {
        var rank := cmd.addr.rank;
        for j := 0 to cfg.bankgroups
          invariant banks.Keys == old(banks.Keys) && refreshQ == old(refreshQ)
          invariant forall b :: b in banks ==> RankStep(old(banks)[b], banks[b], cmd, b.rank == rank && b.group < j)
        {
          for k := 0 to cfg.banksPerGroup
            invariant banks.Keys == old(banks.Keys) && refreshQ == old(refreshQ)
            invariant forall b :: b in banks ==>
                                    RankStep(old(banks)[b], banks[b], cmd, b.rank == rank && (b.group < j || (b.group == j && b.bank < k)))
          {
            var b := BankId(rank, j, k);
            assert RankStep(old(banks)[b], banks[b], cmd, false);
            var next :- Bank.UpdateState(banks[b], cmd);
            banks := banks[b := next];
          }
        }
        assert banks == UpdateStates(cfg, old(Abs()), cmd).value.banks;
        if cmd.kind.IsRefresh() {
          RankNeedRefresh(rank, false);
        }
      } else {
        var next :- Bank.UpdateState(banks[cmd.Bank()], cmd);
        banks := banks[cmd.Bank() := next];
        if cmd.kind.IsRefresh() {
          BankNeedRefresh(cmd.Bank(), false);
        }
      }
      r := Ok(());
    }

    /** `after` is `before` with the state change of `cmd`, if this bank has been visited. */
    static ghost predicate RankStep(before: BankState, after: BankState, cmd: Command, visited: bool) {
      if visited then Bank.UpdateState(before, cmd) == Ok(after) else after == before
    }

    /** The innermost loop of the five timing helpers. */
    method RaiseOne(b: BankId, gaps: seq<Gap>, clk: nat)
      requires b in banks
      modifies this`banks
      ensures banks == old(banks)[b := RaiseBank(old(banks)[b], gaps, clk)]
    {
      for i := 0 to |gaps|
        invariant banks == old(banks)[b := RaiseBank(old(banks)[b], gaps[..i], clk)]
      {
        assert gaps[..i + 1][..i] == gaps[..i];
        var bank := banks[b];
        banks := banks[b := bank.(timing := Bank.UpdateTiming(bank.timing, gaps[i].next, Deadline(clk, gaps[i].cycles)))];
      }
      assert gaps[..|gaps|] == gaps;
    }

    method UpdateSameBankTiming(addr: BankId, gaps: seq<Gap>, clk: nat)
      requires Valid() && cfg.HasBank(addr)
      modifies this`banks
      ensures banks == old(banks)[addr := RaiseBank(old(banks)[addr], gaps, clk)]
    {
      RaiseOne(addr, gaps, clk);
    }

    method UpdateOtherBanksSameBankgroupTiming(addr: BankId, gaps: seq<Gap>, clk: nat)
      requires Valid() && cfg.HasBank(addr)
      modifies this`banks
      ensures banks.Keys == old(banks.Keys)
      ensures forall b :: b in banks ==>
                            banks[b] == if b.rank == addr.rank && b.group == addr.group && b.bank != addr.bank
                            then RaiseBank(old(banks)[b], gaps, clk) else old(banks)[b]
    {
      for k := 0 to cfg.banksPerGroup
        invariant banks.Keys == old(banks.Keys)
        invariant forall b :: b in banks ==>
                                banks[b] == if b.rank == addr.rank && b.group == addr.group && b.bank != addr.bank && b.bank < k
                                then RaiseBank(old(banks)[b], gaps, clk) else old(banks)[b]
      {
        if k != addr.bank {
          RaiseOne(BankId(addr.rank, addr.group, k), gaps, clk);
        }
      }
    }

    method UpdateOtherBankgroupsSameRankTiming(addr: BankId, gaps: seq<Gap>, clk: nat)
      requires Valid() && cfg.HasBank(addr)
      modifies this`banks
      ensures banks.Keys == old(banks.Keys)
      ensures forall b :: b in banks ==>
                            banks[b] == if b.rank == addr.rank && b.group != addr.group
                            then RaiseBank(old(banks)[b], gaps, clk) else old(banks)[b]
    {
      for j := 0 to cfg.bankgroups
        invariant banks.Keys == old(banks.Keys)
        invariant forall b :: b in banks ==>
                                banks[b] == if b.rank == addr.rank && b.group != addr.group && b.group < j
                                then RaiseBank(old(banks)[b], gaps, clk) else old(banks)[b]
      {
        if j != addr.group {
          RaiseGroup(addr.rank, j, gaps, clk);
        }
      }
    }

    /** Every bank of one bank group. */
    method RaiseGroup(rank: int, group: int, gaps: seq<Gap>, clk: nat)
      requires Valid() && 0 <= rank < cfg.ranks && 0 <= group < cfg.bankgroups
      modifies this`banks
      ensures banks.Keys == old(banks.Keys)
      ensures forall b :: b in banks ==>
                            banks[b] == if b.rank == rank && b.group == group
                            then RaiseBank(old(banks)[b], gaps, clk) else old(banks)[b]
    {
      for k := 0 to cfg.banksPerGroup
        invariant banks.Keys == old(banks.Keys)
        invariant forall b :: b in banks ==>
                                banks[b] == if b.rank == rank && b.group == group && b.bank < k
                                then RaiseBank(old(banks)[b], gaps, clk) else old(banks)[b]
      {
        RaiseOne(BankId(rank, group, k), gaps, clk);
      }
    }

    method UpdateOtherRanksTiming(addr: BankId, gaps: seq<Gap>, clk: nat)
      requires Valid() && cfg.HasBank(addr)
      modifies this`banks
      ensures banks.Keys == old(banks.Keys)
      ensures forall b :: b in banks ==>
                            banks[b] == if b.rank != addr.rank
                            then RaiseBank(old(banks)[b], gaps, clk) else old(banks)[b]
    {
      for i := 0 to cfg.ranks
        invariant banks.Keys == old(banks.Keys)
        invariant forall b :: b in banks ==>
                                banks[b] == if b.rank != addr.rank && b.rank < i
                                then RaiseBank(old(banks)[b], gaps, clk) else old(banks)[b]
      {
        if i != addr.rank {
          UpdateSameRankTiming(i, gaps, clk);
        }
      }
    }

    method UpdateSameRankTiming(rank: int, gaps: seq<Gap>, clk: nat)
      requires Valid() && 0 <= rank < cfg.ranks
      modifies this`banks
      ensures banks.Keys == old(banks.Keys)
      ensures forall b :: b in banks ==>
                            banks[b] == if b.rank == rank
                            then RaiseBank(old(banks)[b], gaps, clk) else old(banks)[b]
    {
      for j := 0 to cfg.bankgroups
        invariant banks.Keys == old(banks.Keys)
        invariant forall b :: b in banks ==>
                                banks[b] == if b.rank == rank && b.group < j
                                then RaiseBank(old(banks)[b], gaps, clk) else old(banks)[b]
      {
        RaiseGroup(rank, j, gaps, clk);
      }
    }

    method UpdateActivationTimes(rank: int, clk: nat)
      requires Valid() && 0 <= rank < cfg.ranks
      modifies this`fourAw, this`thirtyTwoAw
      ensures Abs() == RecordActivation(cfg, old(Abs()), rank, clk)
    {
      if |fourAw[rank]| > 0 && clk >= fourAw[rank][0] {
        fourAw := fourAw[rank := fourAw[rank][1..]];
      }
      fourAw := fourAw[rank := fourAw[rank] + [Deadline(clk, cfg.tFAW)]];
      if cfg.IsGDDR() {
        if |thirtyTwoAw[rank]| > 0 && clk >= thirtyTwoAw[rank][0] {
          thirtyTwoAw := thirtyTwoAw[rank := thirtyTwoAw[rank][1..]];
        }
        thirtyTwoAw := thirtyTwoAw[rank := thirtyTwoAw[rank] + [Deadline(clk, cfg.t32AW)]];
      }
    }

    method UpdateTiming(cmd: Command, clk: nat)
      requires Valid() && Addressed(cfg, cmd)
      modifies this`banks, this`fourAw, this`thirtyTwoAw
      ensures Abs() == UpdateTimings(cfg, old(Abs()), cmd, clk)
    {
      if cmd.kind.IsRankCommand() {
        var gaps := SameRank(cfg, cmd.kind);
        UpdateSameRankTiming(cmd.addr.rank, gaps, clk);
        forall b | b in banks
          ensures banks[b] == RaiseBank(old(banks)[b], Constraints(cfg, cmd, b), clk)
        {
        }
      } else {
        if cmd.kind.Activate? {
          UpdateActivationTimes(cmd.addr.rank, clk);
        }
        UpdateRelatedTiming(
          cmd.Bank(),
          SameBank(cfg, cmd.kind),
          OtherBanksSameBankgroup(cfg, cmd.kind),
          OtherBankgroupsSameRank(cfg, cmd.kind),
          OtherRanks(cfg, cmd.kind),
          clk);
        forall b | b in banks
          ensures banks[b] == RaiseBank(old(banks)[b], Constraints(cfg, cmd, b), clk)
        {
        }
      }
      assert banks == UpdateTimings(cfg, old(Abs()), cmd, clk).banks;
    }

    /** The four helper calls of a bank command: each bank of the channel is in exactly one region. */
    method UpdateRelatedTiming(addr: BankId, bank: seq<Gap>, group: seq<Gap>, rank: seq<Gap>, others: seq<Gap>, clk: nat)
      requires Valid() && cfg.HasBank(addr)
      modifies this`banks
      ensures banks.Keys == old(banks.Keys)
      ensures forall b :: b in banks ==>
                            banks[b] == RaiseBank(old(banks)[b], ByRelation(addr, b, bank, group, rank, others), clk)
    {
      UpdateBankgroupTiming(addr, bank, group, clk);
      UpdateOtherBankgroupsSameRankTiming(addr, rank, clk);
      UpdateOtherRanksTiming(addr, others, clk);
    }

    /** The bank itself and the others of its bank group. */
    method UpdateBankgroupTiming(addr: BankId, bank: seq<Gap>, group: seq<Gap>, clk: nat)
      requires Valid() && cfg.HasBank(addr)
      modifies this`banks
      ensures banks.Keys == old(banks.Keys)
      ensures forall b :: b in banks ==>
                            banks[b] == if b == addr then RaiseBank(old(banks)[b], bank, clk)
                            else if b.rank == addr.rank && b.group == addr.group then RaiseBank(old(banks)[b], group, clk)
                            else old(banks)[b]
    {
      UpdateSameBankTiming(addr, bank, clk);
      UpdateOtherBanksSameBankgroupTiming(addr, group, clk);
    }

    method UpdateTimingAndStates(cmd: Command, clk: nat) returns (r: Result<()>)
      requires Valid() && Addressed(cfg, cmd)
      modifies this
      ensures r.Ok? <==> Issue(cfg, old(Abs()), cmd, clk).Ok?
      ensures r.Ok? ==> Valid() && Abs() == Issue(cfg, old(Abs()), cmd, clk).value
    {
      r := UpdateState(cmd);
      if r.Ok? {
        UpdateTiming(cmd, clk);
      }
    }
  }
}
