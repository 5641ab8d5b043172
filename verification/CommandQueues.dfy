/** The per-bank or per-rank command queues and the choice of the next command
    (command_queue.cc). */
module CommandQueues {
  import opened Basics
  import opened Arithmetic
  import opened DramTypes
  import opened Channel

  datatype Queues = Queues(queues: seq<seq<Command>>, idx: nat, inRef: bool, refIdx: set<int>, clk: nat)

  /** A command chosen for issue, with the queue and position it was chosen from. */
  datatype Pick = Pick(cmd: Command, queue: nat, pos: nat)

  function NumQueues(cfg: Config): nat {
    if cfg.queueStructure.PerRank? then cfg.ranks else cfg.Banks() * cfg.ranks
  }

  function QueueIndex(cfg: Config, b: BankId): int {
    if cfg.queueStructure.PerRank? then b.rank else b.rank * cfg.Banks() + b.group * cfg.banksPerGroup + b.bank
  }

  /** A queue holds the column commands of its own banks, each with its decoded address. */
  predicate Placed(cfg: Config, c: Command, k: int) {
    && c.kind.IsReadWrite()
    && c.addr == cfg.decode(c.hexAddr)
    && cfg.HasBank(c.Bank())
    && QueueIndex(cfg, c.Bank()) == k
  }

  predicate AllPlaced(cfg: Config, q: seq<Command>, k: int) {
    forall i :: 0 <= i < |q| ==> Placed(cfg, q[i], k)
  }

  ghost predicate ValidQueues(cfg: Config, qs: Queues) {
    && |qs.queues| == NumQueues(cfg)
    && qs.idx < NumQueues(cfg)
    && forall k :: 0 <= k < |qs.queues| ==> AllPlaced(cfg, qs.queues[k], k)
  }

  lemma QueueIndexInRange(cfg: Config, b: BankId)
    requires cfg.HasBank(b)
    ensures 0 <= QueueIndex(cfg, b) < NumQueues(cfg)
    ensures cfg.queueStructure.PerBank? ==> QueueIndex(cfg, b) / cfg.Banks() == b.rank
  {
    if cfg.queueStructure.PerBank? {
      var inner := b.group * cfg.banksPerGroup + b.bank;
      DigitBelow(b.group, cfg.bankgroups, b.bank, cfg.banksPerGroup);
      DigitBelow(b.rank, cfg.ranks, inner, cfg.Banks());
      Digits(b.rank, inner, cfg.Banks());
      assert cfg.Banks() * cfg.ranks == cfg.ranks * cfg.Banks();
    }
  }

  // ---------------------------------------------------------------- choosing a command

  /** A read of the same location is queued before position `j`. */
  predicate HasRWDependency(q: seq<Command>, j: nat)
    requires j < |q|
  {
    exists i :: 0 <= i < j && q[i].kind.IsRead() && q[i].addr.row == q[j].addr.row && q[i].addr.column == q[j].addr.column
                && q[i].addr.bank == q[j].addr.bank && q[i].addr.bankgroup == q[j].addr.bankgroup
  }

  /** A precharge on behalf of position `j` is allowed: nothing earlier needs the bank, and no
      later row hit is still waiting, unless the row has been hit four times already. */
  predicate ArbitratePrecharge(ch: Channel, q: seq<Command>, j: nat)
    requires j < |q| && q[j].Bank() in ch.banks
  {
    var bank := ch.banks[q[j].Bank()];
    && (forall i :: 0 <= i < j ==> q[i].Bank() != q[j].Bank())
    && (|| (forall i :: j <= i < |q| ==> !(q[i].addr.row == bank.openRow && q[i].Bank() == q[j].Bank()))
        || bank.rowHits >= 4)
  }

  /** Position `j` yields `cmd` and may issue it. */
  predicate Eligible(ch: Channel, q: seq<Command>, j: nat, cmd: Command)
    requires j < |q| && q[j].Bank() in ch.banks
  {
    && (cmd.kind.Precharge? ==> ArbitratePrecharge(ch, q, j))
    && (cmd.kind.IsWrite() ==> !HasRWDependency(q, j))
  }

  /** The first position from `j` on that yields an eligible command. */
  function FirstReady(cfg: Config, ch: Channel, q: seq<Command>, k: nat, clk: nat, j: nat): Result<Option<Pick>>
    requires ValidChannel(cfg, ch) && AllPlaced(cfg, q, k)
    requires j <= |q|
    decreases |q| - j
  {
    if j == |q| then Ok(None)
    else
      assert Placed(cfg, q[j], k);
      var r :- GetReady(cfg, ch, q[j], clk);
      if r.Some? && Eligible(ch, q, j, r.value) then Ok(Some(Pick(r.value, k, j)))
      else FirstReady(cfg, ch, q, k, clk, j + 1)
  }

  /** What the choice guarantees about the position it was made at. */
  lemma {:induction false} FirstReadyMeaning(cfg: Config, ch: Channel, q: seq<Command>, k: nat, clk: nat, j: nat)
    requires ValidChannel(cfg, ch) && AllPlaced(cfg, q, k)
    requires j <= |q|
    requires FirstReady(cfg, ch, q, k, clk, j).Ok? && FirstReady(cfg, ch, q, k, clk, j).value.Some?
    ensures var p := FirstReady(cfg, ch, q, k, clk, j).value.value;
            && p.queue == k
            && j <= p.pos < |q|
            && Placed(cfg, q[p.pos], k)
            && GetReady(cfg, ch, q[p.pos], clk) == Ok(Some(p.cmd))
            && Eligible(ch, q, p.pos, p.cmd)
            && (p.cmd.kind.IsReadWrite() ==> p.cmd == q[p.pos])
    decreases |q| - j
  {
    assert Placed(cfg, q[j], k);
    var r := GetReady(cfg, ch, q[j], clk).value;
    if !(r.Some? && Eligible(ch, q, j, r.value)) {
      FirstReadyMeaning(cfg, ch, q, k, clk, j + 1);
    }
  }

  function FindCommand(q: seq<Command>, cmd: Command, i: nat): (r: Option<nat>)
    requires i <= |q|
    ensures r.Some? ==> i <= r.value < |q| && q[r.value].hexAddr == cmd.hexAddr && q[r.value].kind == cmd.kind
    ensures r.None? ==> forall j :: i <= j < |q| ==> !(q[j].hexAddr == cmd.hexAddr && q[j].kind == cmd.kind)
    decreases |q| - i
  {
    if i == |q| then None
    else if cmd.hexAddr == q[i].hexAddr && cmd.kind == q[i].kind then Some(i)
    else FindCommand(q, cmd, i + 1)
  }

  /** EraseRWCommand: aborts when the command is not queued. */
  function Erase(cfg: Config, qs: Queues, cmd: Command): Result<Queues>
    requires |qs.queues| == NumQueues(cfg)
    requires 0 <= QueueIndex(cfg, cmd.Bank()) < NumQueues(cfg)
  {
    var k := QueueIndex(cfg, cmd.Bank());
    match FindCommand(qs.queues[k], cmd, 0)
    case None => Abort
    case Some(i) => Ok(qs.(queues := qs.queues[k := RemoveAt(qs.queues[k], i)]))
  }

  function NextIndex(cfg: Config, idx: nat): nat {
    if idx + 1 == NumQueues(cfg) then 0 else idx + 1
  }

  /** What GetCommandToIssue leaves behind and returns. */
  datatype Taken = Taken(qs: Queues, pick: Option<Pick>)

  /** GetCommandToIssue: the next `n` queues in round-robin order, skipping those that wait for
      a refresh. A chosen read or write leaves its queue. */
  function Take(cfg: Config, ch: Channel, qs: Queues, n: nat): Result<Taken>
    requires ValidChannel(cfg, ch) && ValidQueues(cfg, qs)
    decreases n
  {
    if n == 0 then Ok(Taken(qs, None))
    else
      var next := qs.(idx := NextIndex(cfg, qs.idx));
      if next.inRef && next.idx in next.refIdx then Take(cfg, ch, next, n - 1)
      else
        var r :- FirstReady(cfg, ch, next.queues[next.idx], next.idx, next.clk, 0);
        match r
        case None => Take(cfg, ch, next, n - 1)
        case Some(p) =>
          if p.cmd.kind.IsReadWrite() then
            assert 0 <= QueueIndex(cfg, p.cmd.Bank()) < NumQueues(cfg) by {
              FirstReadyMeaning(cfg, ch, next.queues[next.idx], next.idx, next.clk, 0);
              QueueIndexInRange(cfg, p.cmd.Bank());
            }
            var erased :- Erase(cfg, next, p.cmd);
            Ok(Taken(erased, Some(p)))
          else Ok(Taken(next, Some(p)))
  }

  // ---------------------------------------------------------------- refresh

  /** The queues that have to wait for the refresh command. */
  function RefIndices(cfg: Config, ref: Command): set<int>
    requires cfg.Banks() > 0
  {
    if ref.kind.Refresh? then
      if cfg.queueStructure.PerBank? then set i | 0 <= i < NumQueues(cfg) && i / cfg.Banks() == ref.addr.rank
      else {ref.addr.rank}
    else {QueueIndex(cfg, ref.Bank())}
  }

  datatype Finished = Finished(qs: Queues, cmd: Option<Command>)

  function RefreshStep(cfg: Config, ch: Channel, qs: Queues): Result<Finished>
    requires ValidChannel(cfg, ch) && ch.refreshQ != [] && Addressed(cfg, ch.refreshQ[0])
  {
    var ref := ch.refreshQ[0];
    var marked := if qs.inRef then qs else qs.(inRef := true, refIdx := qs.refIdx + RefIndices(cfg, ref));
    var r :- GetReady(cfg, ch, ref, qs.clk);
    Ok(Finished(if r.Some? && r.value.kind.IsRefresh() then marked.(inRef := false, refIdx := {}) else marked, r))
  }

  // ---------------------------------------------------------------- adding commands

  predicate WillAccept(cfg: Config, qs: Queues, b: BankId)
    requires |qs.queues| == NumQueues(cfg)
    requires 0 <= QueueIndex(cfg, b) < NumQueues(cfg)
  {
    |qs.queues[QueueIndex(cfg, b)]| < cfg.cmdQueueSize
  }

  function Add(cfg: Config, qs: Queues, cmd: Command): Queues
    requires |qs.queues| == NumQueues(cfg)
    requires 0 <= QueueIndex(cfg, cmd.Bank()) < NumQueues(cfg)
  {
    var k := QueueIndex(cfg, cmd.Bank());
    if WillAccept(cfg, qs, cmd.Bank()) then qs.(queues := qs.queues[k := qs.queues[k] + [cmd]]) else qs
  }

  predicate AllEmpty(qs: Queues) {
    forall k :: 0 <= k < |qs.queues| ==> qs.queues[k] == []
  }

  // ---------------------------------------------------------------- the class

  class CommandQueue {
    const cfg: Config
    const channel: ChannelState
    var queues: seq<seq<Command>>
    var idx: nat
    var inRef: bool
    var refIdx: set<int>
    var clk: nat

    ghost function Abs(): Queues
      reads this
    {
      Queues(queues, idx, inRef, refIdx, clk)
    }

    ghost predicate Valid()
      reads this, channel
    {
      channel.cfg == cfg && channel.Valid() && ValidQueues(cfg, Abs())
    }

    constructor (cfg: Config, channel: ChannelState)
      requires channel.cfg == cfg && channel.Valid()
      ensures this.cfg == cfg && this.channel == channel && Valid()
      ensures Abs() == Queues(seq(NumQueues(cfg), _ => []), 0, false, {}, 0)
    {
      this.cfg := cfg;
      this.channel := channel;
      queues := seq(NumQueues(cfg), _ => []);
      idx, inRef, refIdx, clk := 0, false, {}, 0;
    }

    method GetFirstReadyInQueue(k: nat) returns (r: Result<Option<Pick>>)
      requires Valid() && k < |queues|
      ensures r == FirstReady(cfg, channel.Abs(), queues[k], k, clk, 0)
    {
      var q := queues[k];
      for j := 0 to |q|
        invariant FirstReady(cfg, channel.Abs(), q, k, clk, 0) == FirstReady(cfg, channel.Abs(), q, k, clk, j)
      {
        assert Placed(cfg, q[j], k);
        var ready :- channel.GetReadyCommand(q[j], clk);
        if ready.Some? {
          var allowed := true;
          if ready.value.kind.Precharge? {
            allowed := Arbitrate(q, j);
          } else if ready.value.kind.IsWrite() {
            allowed := !HasRWDependency(q, j);
          }
          if allowed {
            return Ok(Some(Pick(ready.value, k, j)));
          }
        }
      }
      return Ok(None);
    }

    method Arbitrate(q: seq<Command>, j: nat) returns (allowed: bool)
      requires channel.Valid() && j < |q| && q[j].Bank() in channel.banks
      ensures allowed == ArbitratePrecharge(channel.Abs(), q, j)
    {
      var b := q[j].Bank();
      for i := 0 to j
        invariant forall m :: 0 <= m < i ==> q[m].Bank() != b
      {
        if q[i].Bank() == b {
          return false;
        }
      }
      var pendingRowHits := false;
      var i := j;
      while i < |q| && !pendingRowHits
        invariant j <= i <= |q|
        invariant pendingRowHits <==> exists m :: j <= m < i && q[m].addr.row == channel.banks[b].openRow && q[m].Bank() == b
      {
        pendingRowHits := q[i].addr.row == channel.banks[b].openRow && q[i].Bank() == b;
        i := i + 1;
      }
      return !pendingRowHits || channel.banks[b].rowHits >= 4;
    }

    method EraseRWCommand(cmd: Command) returns (r: Result<()>)
      requires |queues| == NumQueues(cfg)
      requires 0 <= QueueIndex(cfg, cmd.Bank()) < NumQueues(cfg)
      modifies this`queues
      ensures r.Ok? <==> Erase(cfg, old(Abs()), cmd).Ok?
      ensures r.Ok? ==> Abs() == Erase(cfg, old(Abs()), cmd).value
    {
      var k := QueueIndex(cfg, cmd.Bank());
      for i := 0 to |queues[k]|
        invariant queues == old(queues)
        invariant FindCommand(queues[k], cmd, 0) == FindCommand(queues[k], cmd, i)
      {
        if cmd.hexAddr == queues[k][i].hexAddr && cmd.kind == queues[k][i].kind {
          queues := queues[k := queues[k][..i] + queues[k][i + 1..]];
          return Ok(());
        }
      }
      return Abort;
    }

    method GetCommandToIssue() returns (r: Result<Option<Pick>>)
      requires Valid()
      modifies this`queues, this`idx
      ensures r.Ok? <==> Take(cfg, channel.Abs(), old(Abs()), NumQueues(cfg)).Ok?
      ensures r.Ok? ==> Taken(Abs(), r.value) == Take(cfg, channel.Abs(), old(Abs()), NumQueues(cfg)).value
    {
      var n := NumQueues(cfg);
      while n > 0
        invariant queues == old(queues) && idx < NumQueues(cfg)
        invariant Take(cfg, channel.Abs(), old(Abs()), NumQueues(cfg)) == Take(cfg, channel.Abs(), Abs(), n)
      {
        n := n - 1;
        idx := NextIndex(cfg, idx);
        if inRef && idx in refIdx {
          continue;
        }
        var pick :- GetFirstReadyInQueue(idx);
        if pick.Some? {
          var cmd := pick.value.cmd;
          if cmd.kind.IsReadWrite() {
            FirstReadyMeaning(cfg, channel.Abs(), queues[idx], idx, clk, 0);
            QueueIndexInRange(cfg, cmd.Bank());
            var _ :- EraseRWCommand(cmd);
          }
          return Ok(pick);
        }
      }
      return Ok(None);
    }

    method FinishRefresh() returns (r: Result<Option<Command>>)
      requires Valid()
      requires channel.refreshQ != [] && Addressed(cfg, channel.refreshQ[0])
      modifies this`inRef, this`refIdx
      ensures r.Ok? <==> RefreshStep(cfg, channel.Abs(), old(Abs())).Ok?
      ensures r.Ok? ==> Finished(Abs(), r.value) == RefreshStep(cfg, channel.Abs(), old(Abs())).value
    {
      var ref := channel.refreshQ[0];
      if !inRef {
        GetRefQIndices(ref);
        inRef := true;
      }
      var cmd :- channel.GetReadyCommand(ref, clk);
      if cmd.Some? && cmd.value.kind.IsRefresh() {
        refIdx := {};
        inRef := false;
      }
      return Ok(cmd);
    }

    method GetRefQIndices(ref: Command)
      requires cfg.Banks() > 0
      modifies this`refIdx
      ensures refIdx == old(refIdx) + RefIndices(cfg, ref)
    {
      if ref.kind.Refresh? {
        if cfg.queueStructure.PerBank? {
          for i := 0 to NumQueues(cfg)
            invariant refIdx == old(refIdx) + set m | 0 <= m < i && m / cfg.Banks() == ref.addr.rank
          {
            if i / cfg.Banks() == ref.addr.rank {
              refIdx := refIdx + {i};
            }
          }
        } else {
          refIdx := refIdx + {ref.addr.rank};
        }
      } else {
        refIdx := refIdx + {QueueIndex(cfg, ref.Bank())};
      }
    }

    method AddCommand(cmd: Command) returns (ok: bool)
      requires |queues| == NumQueues(cfg)
      requires 0 <= QueueIndex(cfg, cmd.Bank()) < NumQueues(cfg)
      modifies this`queues
      ensures ok == WillAccept(cfg, old(Abs()), cmd.Bank())
      ensures Abs() == Add(cfg, old(Abs()), cmd)
    {
      var k := QueueIndex(cfg, cmd.Bank());
      ok := |queues[k]| < cfg.cmdQueueSize;
      if ok {
        queues := queues[k := queues[k] + [cmd]];
      }
    }

    method QueueEmpty() returns (empty: bool)
      ensures empty == AllEmpty(Abs())
    {
      for k := 0 to |queues|
        invariant forall m :: 0 <= m < k ==> queues[m] == []
      {
        if queues[k] != [] {
          return false;
        }
      }
      return true;
    }

    method ClockTick()
      modifies this`clk
      ensures clk == old(clk) + 1
    {
      clk := clk + 1;
    }
  }
}
