/** The controller as the source writes it: an object that owns the channel state, the command
    queues and the refresh generator and updates its own queues in place. Every method is proved
    to do what the function of the same operation says. */
module ControllerObject {
  import opened Basics
  import opened DramTypes
  import opened Channel
  import opened CommandQueues
  import opened RefreshUnit
  import opened History
  import opened Spec = Controller
  import Runs

  lemma {:induction false} WithAddrSplit(q: seq<Transaction>, i: nat, a: nat)
    requires i < |q| && q[i].addr == a
    requires forall j :: 0 <= j < i ==> q[j].addr != a
    ensures WithAddr(q, a) == [q[i]] + WithAddr(RemoveAt(q, i), a)
    ensures WithoutAddr(RemoveAt(q, i), a) == WithoutAddr(q, a)
    ensures DropFirstWrite(q, a) == RemoveAt(q, i)
  {
    if i == 0 {
      assert RemoveAt(q, 0) == q[1..];
    } else {
      assert RemoveAt(q, i)[1..] == RemoveAt(q[1..], i - 1);
      assert RemoveAt(q, i) == [q[0]] + RemoveAt(q[1..], i - 1);
      WithAddrSplit(q[1..], i - 1, a);
    }
  }

  lemma {:induction false} WithAddrNone(q: seq<Transaction>, a: nat)
    requires WithAddr(q, a) == []
    ensures WithoutAddr(q, a) == q
  {
    if q != [] {
      WithAddrNone(q[1..], a);
    }
  }

  lemma {:induction false} WithAddrCount(q: seq<Transaction>, a: nat)
    ensures |WithAddr(q, a)| > 0 <==> HasAddr(q, a)
  {
    if q != [] {
      WithAddrCount(q[1..], a);
      if HasAddr(q, a) && q[0].addr != a {
        var i :| 0 <= i < |q| && q[i].addr == a;
        assert q[1..][i - 1].addr == a;
      }
    }
  }

  class Controller {
    const cfg: Config
    const channel: ChannelState
    const queue: CommandQueue
    const refresher: Refresher
    var clk: nat
    var unifiedQ: seq<Transaction>
    var readQ: seq<Transaction>
    var writeBuf: seq<Transaction>
    var pendRd: seq<Transaction>
    var pendWr: seq<Transaction>
    var returnQ: seq<Transaction>
    var draining: int
    ghost var shadow: Shadow

    ghost function Abs(): State
      reads this, channel, queue, refresher
    {
      State(clk, channel.Abs(), queue.Abs(), refresher.Abs(), unifiedQ, readQ, writeBuf, pendRd, pendWr, returnQ, draining, shadow)
    }

    ghost predicate Linked() {
      && channel.cfg == queue.cfg == refresher.cfg == cfg
      && queue.channel == channel && refresher.channel == channel
      && refresher.interval == Interval(cfg)
    }

    ghost predicate Valid()
      reads this, channel, queue, refresher
    {
      Linked() && Shaped(cfg, Abs())
    }

    constructor (cfg: Config)
      requires Configured(cfg)
      ensures this.cfg == cfg && Valid() && fresh(channel) && fresh(queue) && fresh(refresher)
      ensures Abs() == Runs.InitialState(cfg)
    {
      this.cfg := cfg;
      var state := new ChannelState(cfg);
      var commands := new CommandQueue(cfg, state);
      var refresh := new Refresher(cfg, state);
      channel, queue, refresher := state, commands, refresh;
      clk, draining := 0, 0;
      unifiedQ, readQ, writeBuf, pendRd, pendWr, returnQ := [], [], [], [], [], [];
      shadow := Shadow([], map[], map[], map[], [], []);
      new;
      Runs.InitialIsShaped(cfg);
    }

    method WillAcceptTransaction(isWrite: bool) returns (ok: bool)
      ensures ok == Spec.WillAcceptTransaction(cfg, Abs(), isWrite)
    {
      if cfg.unifiedQueue {
        ok := |unifiedQ| < cfg.transQueueSize;
      } else if !isWrite {
        ok := |readQ| < cfg.transQueueSize;
      } else {
        ok := |writeBuf| < cfg.transQueueSize;
      }
    }

    /** `serial` names the request; the caller numbers its requests in order. */
    method AddTransaction(addr: nat, isWrite: bool, serial: nat, ghost value: int)
      requires Valid() && serial == |shadow.log|
      modifies this
      ensures Valid()
      ensures Abs() == Spec.AddTransaction(cfg, old(Abs()), Request(addr, isWrite, value))
    {
      ghost var req := Request(addr, isWrite, value);
      var t := Transaction(addr, isWrite, clk, 0, serial);
      shadow := shadow.(log := shadow.log + [req]);
      if isWrite {
        var merged := Contains(pendWr, addr);
        if !merged {
          pendWr := pendWr + [t];
          if cfg.unifiedQueue {
            unifiedQ := unifiedQ + [t];
          } else {
            writeBuf := writeBuf + [t];
          }
        }
        shadow := shadow.(buf := shadow.buf[addr := value]);
        returnQ := returnQ + [t.(complete := clk + 1)];
      } else {
        var forwarded := Contains(pendWr, addr);
        if forwarded {
          shadow := shadow.(served := shadow.served[serial := Lookup(shadow.buf, addr)]);
          returnQ := returnQ + [t.(complete := clk + 1)];
          return;
        }
        var coalesced := Contains(pendRd, addr);
        pendRd := pendRd + [t];
        if !coalesced {
          if cfg.unifiedQueue {
            unifiedQ := unifiedQ + [t];
          } else {
            readQ := readQ + [t];
          }
        }
      }
    }

    /** count(addr) > 0 */
    static method Contains(q: seq<Transaction>, addr: nat) returns (found: bool)
      ensures found == HasAddr(q, addr)
    {
      for i := 0 to |q|
        invariant forall j :: 0 <= j < i ==> q[j].addr != addr
      {
        if q[i].addr == addr {
          return true;
        }
      }
      return false;
    }

    /** find(addr): the first entry with that key. */
    static method Find(q: seq<Transaction>, addr: nat) returns (i: nat)
      requires HasAddr(q, addr)
      ensures i < |q| && q[i].addr == addr
      ensures forall j :: 0 <= j < i ==> q[j].addr != addr
    {
      i := 0;
      while q[i].addr != addr
        invariant i < |q|
        invariant forall j :: 0 <= j < i ==> q[j].addr != addr
        decreases |q| - i
      {
        i := i + 1;
      }
    }

    /** count(addr) */
    static method Count(q: seq<Transaction>, addr: nat) returns (n: nat)
      ensures n == |WithAddr(q, addr)|
    {
      n := 0;
      for i := 0 to |q|
        invariant n + |WithAddr(q[i..], addr)| == |WithAddr(q, addr)|
      {
        assert q[i..][0] == q[i] && q[i..][1..] == q[i + 1..];
        if q[i].addr == addr {
          n := n + 1;
        }
      }
    }

    method IssueCommand(cmd: Command) returns (r: Result<()>)
      requires Valid() && Addressed(cfg, cmd)
      modifies this, channel
      ensures r.Ok? <==> Spec.IssueCommand(cfg, old(Abs()), cmd).Ok?
      ensures r.Ok? ==> Abs() == Spec.IssueCommand(cfg, old(Abs()), cmd).value
    {
      var found := UpdatePending(cmd);
      if !found {
        return Abort;
      }
      r := channel.UpdateTimingAndStates(cmd, clk);
    }

    /** The first half of IssueCommand: the pending and return queues. */
    method UpdatePending(cmd: Command) returns (found: bool)
      modifies this
      ensures found == IsPending(old(Abs()), cmd)
      ensures found ==> Abs() == Account(cfg, old(Abs()), cmd)
      ensures clk == old(clk)
    {
      var a := cmd.hexAddr;
      if cmd.kind.IsRead() {
        var numReads := Count(pendRd, a);
        WithAddrCount(pendRd, a);
        if numReads == 0 {
          return false;
        }
        ghost var waiting := WithAddr(pendRd, a);
        ReturnReads(a, numReads);
        shadow := shadow.(served := ServeAll(shadow.served, waiting, Lookup(shadow.mem, a)));
      } else if cmd.kind.IsWrite() {
        found := Contains(pendWr, a);
        if !found {
          return false;
        }
        var i := Find(pendWr, a);
        WithAddrSplit(pendWr, i, a);
        pendWr := pendWr[..i] + pendWr[i + 1..];
        shadow := shadow.(mem := shadow.mem[a := Lookup(shadow.buf, a)], buf := shadow.buf - {a});
      }
      shadow := shadow.(history := shadow.history + [Issued(cmd, clk)]);
      found := true;
    }

    /** The loop of IssueCommand that returns every pending read of the address. */
    method ReturnReads(a: nat, count: nat)
      requires count == |WithAddr(pendRd, a)|
      modifies this`pendRd, this`returnQ
      ensures pendRd == WithoutAddr(old(pendRd), a)
      ensures returnQ == old(returnQ) + CompleteAt(WithAddr(old(pendRd), a), Deadline(clk, cfg.ReadDelay()))
    {
      var cycle := Deadline(clk, cfg.ReadDelay());
      var numReads := count;
      ghost var done: seq<Transaction> := [];
      while numReads > 0
        invariant numReads == |WithAddr(pendRd, a)|
        invariant done + WithAddr(pendRd, a) == WithAddr(old(pendRd), a)
        invariant WithoutAddr(pendRd, a) == WithoutAddr(old(pendRd), a)
        invariant returnQ == old(returnQ) + CompleteAt(done, cycle)
      {
        WithAddrCount(pendRd, a);
        var i := Find(pendRd, a);
        WithAddrSplit(pendRd, i, a);
        var t := pendRd[i];
        assert CompleteAt(done + [t], cycle) == CompleteAt(done, cycle) + [t.(complete := cycle)];
        done := done + [t];
        returnQ := returnQ + [t.(complete := cycle)];
        pendRd := pendRd[..i] + pendRd[i + 1..];
        numReads := numReads - 1;
      }
      WithAddrNone(pendRd, a);
      assert done == WithAddr(old(pendRd), a);
    }

    method ScheduleTransaction()
      requires Valid()
      modifies this, queue
      ensures Abs() == Spec.ScheduleTransaction(cfg, old(Abs()))
    {
      UpdateDraining();
      var source := if cfg.unifiedQueue then unifiedQ else if draining > 0 then writeBuf else readQ;
      var found := FindAccepted(source);
      if found.Some? {
        var t := source[found.value];
        var cmd := TransToCommand(cfg, t);
        TransCommandPlaced(cfg, t);
        var blocked := IsBlocked(t);
        if blocked {
          draining := 0;
        } else {
          Move(source, found.value, cmd);
        }
      }
    }

    /** A write waits while a read of its address is pending; only split queues check. */
    method IsBlocked(t: Transaction) returns (b: bool)
      ensures b == (!cfg.unifiedQueue && t.isWrite && HasAddr(pendRd, t.addr))
    {
      b := false;
      if !cfg.unifiedQueue && t.isWrite {
        b := Contains(pendRd, t.addr);
      }
    }

    /** Starts a write drain when the write buffer is full, long enough with idle command queues, or
        the only thing to do. */
    method UpdateDraining()
      requires Linked()
      modifies this`draining
      ensures draining == Draining(cfg, old(Abs()))
    {
      if draining == 0 && !cfg.unifiedQueue {
        var empty := queue.QueueEmpty();
        if |writeBuf| >= cfg.transQueueSize || (|writeBuf| > 8 && empty) || |readQ| == 0 {
          draining := |writeBuf|;
        }
      }
    }

    /** The scheduling loop: the first transaction whose command queue has room. */
    method FindAccepted(source: seq<Transaction>) returns (r: Option<nat>)
      requires Linked() && cfg.WellFormed() && |queue.queues| == NumQueues(cfg)
      ensures r == FirstAccepted(cfg, queue.Abs(), source, 0)
    {
      for i := 0 to |source|
        invariant FirstAccepted(cfg, queue.Abs(), source, 0) == FirstAccepted(cfg, queue.Abs(), source, i)
      {
        var cmd := TransToCommand(cfg, source[i]);
        TransCommandPlaced(cfg, source[i]);
        if |queue.queues[QueueIndex(cfg, cmd.Bank())]| < cfg.cmdQueueSize {
          return Some(i);
        }
      }
      return None;
    }

    /** Moves the chosen transaction to its command queue. */
    method Move(source: seq<Transaction>, i: nat, cmd: Command)
      requires |queue.queues| == NumQueues(cfg) && queue.cfg == cfg
      requires 0 <= QueueIndex(cfg, cmd.Bank()) < NumQueues(cfg)
      requires i < |source|
      requires source == if cfg.unifiedQueue then unifiedQ else if draining > 0 then writeBuf else readQ
      modifies this`draining, this`unifiedQ, this`writeBuf, this`readQ, queue
      ensures queue.Abs() == Add(cfg, old(queue.Abs()), cmd)
      ensures draining == if !cfg.unifiedQueue && cmd.kind.IsWrite() then old(draining) - 1 else old(draining)
      ensures unifiedQ == if cfg.unifiedQueue then RemoveAt(source, i) else old(unifiedQ)
      ensures writeBuf == if !cfg.unifiedQueue && old(draining) > 0 then RemoveAt(source, i) else old(writeBuf)
      ensures readQ == if !cfg.unifiedQueue && old(draining) <= 0 then RemoveAt(source, i) else old(readQ)
    {
      var rest := source[..i] + source[i + 1..];
      if cfg.unifiedQueue {
        unifiedQ := rest;
      } else if draining > 0 {
        writeBuf := rest;
      } else {
        readQ := rest;
      }
      if !cfg.unifiedQueue && cmd.kind.IsWrite() {
        draining := draining - 1;
      }
      var _ := queue.AddCommand(cmd);
    }

    /** The address and direction of a finished transaction, if there is one. */
    method ReturnDoneTrans(clock: nat) returns (r: Option<(nat, bool)>)
      modifies this`returnQ, this`shadow
      ensures Abs() == ReturnDone(old(Abs()), clock)
      ensures r.None? <==> FirstDone(old(returnQ), clock, 0).None?
      ensures r.Some? ==> var t := old(returnQ)[FirstDone(old(returnQ), clock, 0).value]; r.value == (t.addr, t.isWrite)
    {
      for i := 0 to |returnQ|
        invariant returnQ == old(returnQ) && shadow == old(shadow)
        invariant FirstDone(returnQ, clock, 0) == FirstDone(returnQ, clock, i)
      {
        if clock >= returnQ[i].complete {
          var t := returnQ[i];
          shadow := shadow.(delivered := shadow.delivered + [t]);
          returnQ := returnQ[..i] + returnQ[i + 1..];
          return Some((t.addr, t.isWrite));
        }
      }
      return None;
    }

    /** GetCommandToIssue, without the place the command came from. */
    method NextCommand() returns (r: Result<Option<Command>>)
      requires Valid()
      modifies queue
      ensures r.Ok? <==> TakePhase(cfg, old(Abs())).Ok?
      ensures r.Ok? ==> Valid() && Chosen(Abs(), r.value) == TakePhase(cfg, old(Abs())).value
    {
      var pick :- queue.GetCommandToIssue();
      return Ok(if pick.None? then None else Some(pick.value.cmd));
    }

    method ClockTick() returns (r: Result<()>)
      requires Valid()
      modifies this, channel, queue, refresher
      ensures r.Ok? <==> Spec.ClockTick(cfg, old(Abs())).Ok?
      ensures r.Ok? ==> Valid() && Abs() == Spec.ClockTick(cfg, old(Abs())).value
    {
      var cmd :- Choose();
      if cmd.Some? {
        var _ :- Issue(cmd.value);
      }
      Conclude();
      return Ok(());
    }

    /** Scheduling and the clocks. */
    method Conclude()
      requires Valid()
      modifies this, queue
      ensures Valid() && Abs() == ConcludePhase(cfg, old(Abs()))
    {
      ScheduleIsShaped(cfg, Abs());
      ScheduleTransaction();
      clk := clk + 1;
      queue.ClockTick();
    }

    /** The refresh generator and the choice of the first command. */
    method Choose() returns (r: Result<Option<Command>>)
      requires Valid()
      modifies channel, queue, refresher
      ensures r.Ok? <==> ChoosePhase(cfg, RefreshPhase(cfg, old(Abs()))).Ok?
      ensures r.Ok? ==> Valid() && Chosen(Abs(), r.value) == ChoosePhase(cfg, RefreshPhase(cfg, old(Abs()))).value
    {
      refresher.ClockTick();
      assert Abs() == RefreshPhase(cfg, old(Abs()));
      var cmd: Option<Command> := None;
      if channel.refreshQ != [] {
        cmd :- queue.FinishRefresh();
      }
      if cmd.None? {
        cmd :- NextCommand();
      }
      return Ok(cmd);
    }

    /** Issues the first command and, with dual command issue, perhaps a second one. */
    method Issue(cmd: Command) returns (r: Result<()>)
      requires Valid() && ChosenOk(cfg, Chosen(Abs(), Some(cmd)))
      modifies this, channel, queue
      ensures r.Ok? <==> IssuePhase(cfg, Chosen(old(Abs()), Some(cmd))).Ok?
      ensures r.Ok? ==> Valid() && Abs() == IssuePhase(cfg, Chosen(old(Abs()), Some(cmd))).value
    {
      IssueIsShaped(cfg, Abs(), cmd);
      var _ :- IssueCommand(cmd);
      if cfg.dualCommand {
        var second :- NextCommand();
        if second.Some? && second.value.kind.IsReadWrite() != cmd.kind.IsReadWrite() {
          IssueIsShaped(cfg, Abs(), second.value);
          var _ :- IssueCommand(second.value);
        }
      }
      return Ok(());
    }
  }
}
