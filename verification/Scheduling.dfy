/** Which transaction a cycle moves to the command queues (ScheduleTransaction in controller.cc), in
    terms of the queues alone. */
module Scheduling {
  import opened Basics
  import opened DramTypes
  import opened Channel
  import opened CommandQueues
  import opened Controller
  import opened Ordering
  import opened OrderingSchedule
  import opened Runs

  // ---------------------------------------------------------------- what a step does

  /** The command queue of an address has room. */
  predicate Room(cfg: Config, qs: Queues, addr: nat)
    requires cfg.WellFormed() && |qs.queues| == NumQueues(cfg)
  {
    HomeInRange(cfg, addr);
    |qs.queues[Home(cfg, addr)]| < cfg.cmdQueueSize
  }

  /** The first transaction of the queue whose command queue has room. */
  ghost predicate FirstWithRoom(cfg: Config, qs: Queues, q: seq<Transaction>, i: nat)
    requires cfg.WellFormed() && |qs.queues| == NumQueues(cfg)
  {
    i < |q| && Room(cfg, qs, q[i].addr) && forall j :: 0 <= j < i ==> !Room(cfg, qs, q[j].addr)
  }

  ghost predicate NoneHasRoom(cfg: Config, qs: Queues, q: seq<Transaction>)
    requires cfg.WellFormed() && |qs.queues| == NumQueues(cfg)
  {
    forall j :: 0 <= j < |q| ==> !Room(cfg, qs, q[j].addr)
  }

  /** The command that serves a transaction. */
  function Serving(cfg: Config, t: Transaction): Command {
    var kind := if t.isWrite then (if cfg.closePage then WritePrecharge else Write)
                else (if cfg.closePage then ReadPrecharge else Read);
    Command(kind, cfg.decode(t.addr), t.addr)
  }

  /** The transaction's command joins the end of its command queue; the other queues stay. */
  ghost predicate Joined(cfg: Config, qs: Queues, qs': Queues, t: Transaction)
    requires cfg.WellFormed() && |qs.queues| == NumQueues(cfg)
  {
    HomeInRange(cfg, t.addr);
    var k := Home(cfg, t.addr);
    qs' == qs.(queues := qs.queues[k := qs.queues[k] + [Serving(cfg, t)]])
  }

  /** Write number `i` of the buffer moves, and `left` more writes are to be drained. */
  ghost predicate WriteMoves(cfg: Config, s: State, s': State, i: nat, left: int)
    requires cfg.WellFormed() && |s.cq.queues| == NumQueues(cfg) && i < |s.writeBuf|
  {
    Joined(cfg, s.cq, s'.cq, s.writeBuf[i]) && s' == s.(cq := s'.cq, writeBuf := RemoveAt(s.writeBuf, i), draining := left)
  }

  ghost predicate ReadMoves(cfg: Config, s: State, s': State, i: nat)
    requires cfg.WellFormed() && |s.cq.queues| == NumQueues(cfg) && i < |s.readQ|
  {
    Joined(cfg, s.cq, s'.cq, s.readQ[i]) && s' == s.(cq := s'.cq, readQ := RemoveAt(s.readQ, i))
  }

  /** The first write with room moves with `left` to go, or stops the drain if a read of its address
      is pending; without room only the counter is set. */
  ghost predicate Drains(cfg: Config, s: State, s': State, counter: int)
    requires cfg.WellFormed() && |s.cq.queues| == NumQueues(cfg)
  {
    && (NoneHasRoom(cfg, s.cq, s.writeBuf) ==> s' == s.(draining := counter))
    && forall i: nat :: FirstWithRoom(cfg, s.cq, s.writeBuf, i) ==>
                          if HasAddr(s.pendRd, s.writeBuf[i].addr) then s' == s.(draining := 0)
                          else WriteMoves(cfg, s, s', i, counter - 1)
  }

  /** The first read with room moves, and nothing else changes. */
  ghost predicate Reads(cfg: Config, s: State, s': State)
    requires cfg.WellFormed() && |s.cq.queues| == NumQueues(cfg)
  {
    && (NoneHasRoom(cfg, s.cq, s.readQ) ==> s' == s)
    && forall i: nat :: FirstWithRoom(cfg, s.cq, s.readQ, i) ==> ReadMoves(cfg, s, s', i)
  }

  /** The write buffer is full, or is longer than eight while no command waits, or no read waits. */
  predicate DrainIsDue(cfg: Config, s: State) {
    || |s.writeBuf| >= cfg.transQueueSize
    || (|s.writeBuf| > 8 && forall k :: 0 <= k < |s.cq.queues| ==> s.cq.queues[k] == [])
    || s.readQ == []
  }

  lemma {:induction false} AcceptedIsFirst(cfg: Config, qs: Queues, q: seq<Transaction>, i: nat)
    requires cfg.WellFormed() && |qs.queues| == NumQueues(cfg) && i <= |q|
    requires forall j :: 0 <= j < i ==> !Room(cfg, qs, q[j].addr)
    ensures match FirstAccepted(cfg, qs, q, i)
            case None => NoneHasRoom(cfg, qs, q)
            case Some(k) => FirstWithRoom(cfg, qs, q, k)
    decreases |q| - i
  {
    if i < |q| {
      AcceptsIffRoom(cfg, qs, q[i]);
      if !Room(cfg, qs, q[i].addr) {
        AcceptedIsFirst(cfg, qs, q, i + 1);
      }
    }
  }

  lemma CommandHome(cfg: Config, t: Transaction)
    requires cfg.WellFormed()
    ensures TransToCommand(cfg, t) == Serving(cfg, t)
    ensures QueueIndex(cfg, TransToCommand(cfg, t).Bank()) == Home(cfg, t.addr)
    ensures 0 <= Home(cfg, t.addr) < NumQueues(cfg)
  {
    HomeInRange(cfg, t.addr);
  }

  lemma AcceptsIffRoom(cfg: Config, qs: Queues, t: Transaction)
    requires cfg.WellFormed() && |qs.queues| == NumQueues(cfg)
    ensures Accepts(cfg, qs, t) <==> Room(cfg, qs, t.addr)
  {
    CommandHome(cfg, t);
  }

  lemma AddJoins(cfg: Config, qs: Queues, t: Transaction, cmd: Command)
    requires cfg.WellFormed() && |qs.queues| == NumQueues(cfg) && Room(cfg, qs, t.addr)
    requires cmd == TransToCommand(cfg, t) && 0 <= QueueIndex(cfg, cmd.Bank()) < NumQueues(cfg)
    ensures Joined(cfg, qs, Add(cfg, qs, cmd), t)
  {
    CommandHome(cfg, t);
  }

  /** What scheduling does once it is known from which queue. */
  lemma ScheduleFrom(cfg: Config, s: State, q: seq<Transaction>, counter: int)
    requires LineInv(cfg, s) && q == SourceQueue(cfg, s) && counter == Draining(cfg, s)
    ensures var s', first := ScheduleTransaction(cfg, s), FirstAccepted(cfg, s.cq, q, 0);
            match first
            case None => NoneHasRoom(cfg, s.cq, q) && s' == s.(draining := counter)
            case Some(i) =>
              && FirstWithRoom(cfg, s.cq, q, i)
              && if !cfg.unifiedQueue && q[i].isWrite && HasAddr(s.pendRd, q[i].addr) then s' == s.(draining := 0)
                 else
                   && Joined(cfg, s.cq, s'.cq, q[i])
                   && s' == s.(cq := s'.cq,
                            draining := if !cfg.unifiedQueue && q[i].isWrite then counter - 1 else counter,
                            unifiedQ := if cfg.unifiedQueue then RemoveAt(q, i) else s.unifiedQ,
                            writeBuf := if !cfg.unifiedQueue && counter > 0 then RemoveAt(q, i) else s.writeBuf,
                            readQ := if !cfg.unifiedQueue && counter <= 0 then RemoveAt(q, i) else s.readQ)
  {
    AcceptedIsFirst(cfg, s.cq, q, 0);
    var first := FirstAccepted(cfg, s.cq, q, 0);
    if first.Some? {
      CommandHome(cfg, q[first.value]);
      AddJoins(cfg, s.cq, q[first.value], TransToCommand(cfg, q[first.value]));
    }
  }

  lemma FirstIsUnique(cfg: Config, qs: Queues, q: seq<Transaction>, i: nat, j: nat)
    requires cfg.WellFormed() && |qs.queues| == NumQueues(cfg)
    requires FirstWithRoom(cfg, qs, q, i) && FirstWithRoom(cfg, qs, q, j)
    ensures i == j
  {
  }

  /** While the counter selects the writes, they are drained. */
  lemma CounterDrains(cfg: Config, s: State, counter: int)
    requires LineInv(cfg, s) && !cfg.unifiedQueue && counter == Draining(cfg, s) > 0
    ensures Drains(cfg, s, ScheduleTransaction(cfg, s), counter)
  {
    ScheduleFrom(cfg, s, s.writeBuf, counter);
    forall i: nat | FirstWithRoom(cfg, s.cq, s.writeBuf, i)
      ensures FirstAccepted(cfg, s.cq, s.writeBuf, 0) == Some(i)
    {
      if FirstAccepted(cfg, s.cq, s.writeBuf, 0).Some? {
        FirstIsUnique(cfg, s.cq, s.writeBuf, i, FirstAccepted(cfg, s.cq, s.writeBuf, 0).value);
      }
    }
  }

  lemma NoCounterReads(cfg: Config, s: State)
    requires LineInv(cfg, s) && !cfg.unifiedQueue && Draining(cfg, s) == 0 == s.draining
    ensures Reads(cfg, s, ScheduleTransaction(cfg, s))
  {
    ScheduleFrom(cfg, s, s.readQ, 0);
    forall i: nat | FirstWithRoom(cfg, s.cq, s.readQ, i)
      ensures FirstAccepted(cfg, s.cq, s.readQ, 0) == Some(i)
    {
      if FirstAccepted(cfg, s.cq, s.readQ, 0).Some? {
        FirstIsUnique(cfg, s.cq, s.readQ, i, FirstAccepted(cfg, s.cq, s.readQ, 0).value);
      }
    }
  }

  // ---------------------------------------------------------------- the step by its circumstances

  /** With split queues: when a drain is due, or one is going on, the first write with room moves, or
      ends the drain if a read of its address is pending. A due drain counts the whole buffer. */
  lemma DrainSchedulesWrites(cfg: Config, s: State)
    requires LineInv(cfg, s) && !cfg.unifiedQueue && s.writeBuf != []
    ensures s.draining == 0 && DrainIsDue(cfg, s) ==> Drains(cfg, s, ScheduleTransaction(cfg, s), |s.writeBuf|)
    ensures s.draining > 0 ==> Drains(cfg, s, ScheduleTransaction(cfg, s), s.draining)
  {
    assert AllEmpty(s.cq) <==> forall k :: 0 <= k < |s.cq.queues| ==> s.cq.queues[k] == [];
    if s.draining > 0 {
      CounterDrains(cfg, s, s.draining);
    } else if s.draining == 0 && DrainIsDue(cfg, s) {
      CounterDrains(cfg, s, |s.writeBuf|);
    }
  }

  /** With split queues and no drain going on or due, no write moves, and the first read with room
      does. */
  lemma ReadsGoOtherwise(cfg: Config, s: State)
    requires LineInv(cfg, s) && !cfg.unifiedQueue && s.draining == 0 && (s.writeBuf == [] || !DrainIsDue(cfg, s))
    ensures Reads(cfg, s, ScheduleTransaction(cfg, s))
    ensures ScheduleTransaction(cfg, s).writeBuf == s.writeBuf && ScheduleTransaction(cfg, s).draining == 0
  {
    assert AllEmpty(s.cq) <==> forall k :: 0 <= k < |s.cq.queues| ==> s.cq.queues[k] == [];
    NoCounterReads(cfg, s);
    ScheduleFrom(cfg, s, s.readQ, 0);
  }

  /** With a unified queue the first transaction with room moves. */
  lemma UnifiedSchedules(cfg: Config, s: State)
    requires LineInv(cfg, s) && cfg.unifiedQueue
    ensures var s' := ScheduleTransaction(cfg, s);
            && (NoneHasRoom(cfg, s.cq, s.unifiedQ) ==> s' == s)
            && forall i: nat :: FirstWithRoom(cfg, s.cq, s.unifiedQ, i) ==>
                                  && Joined(cfg, s.cq, s'.cq, s.unifiedQ[i])
                                  && s' == s.(cq := s'.cq, unifiedQ := RemoveAt(s.unifiedQ, i))
  {
    ScheduleFrom(cfg, s, s.unifiedQ, s.draining);
    forall i: nat | FirstWithRoom(cfg, s.cq, s.unifiedQ, i)
      ensures FirstAccepted(cfg, s.cq, s.unifiedQ, 0) == Some(i)
    {
      if FirstAccepted(cfg, s.cq, s.unifiedQ, 0).Some? {
        FirstIsUnique(cfg, s.cq, s.unifiedQ, i, FirstAccepted(cfg, s.cq, s.unifiedQ, 0).value);
      }
    }
  }

  // ---------------------------------------------------------------- ticks

  /** The transaction queues are as before, no command queue is longer, and no read is pending that
      was not. */
  ghost predicate Eased(s: State, s': State) {
    && s'.writeBuf == s.writeBuf && s'.readQ == s.readQ && s'.unifiedQ == s.unifiedQ && s'.draining == s.draining
    && (s.pendRd == [] ==> s'.pendRd == [])
    && |s'.cq.queues| == |s.cq.queues|
    && forall k :: 0 <= k < |s.cq.queues| ==> |s'.cq.queues[k]| <= |s.cq.queues[k]|
  }

  lemma EasedTwice(a: State, b: State, c: State)
    requires Eased(a, b) && Eased(b, c)
    ensures Eased(a, c)
  {
  }

  lemma TakeEases(cfg: Config, s: State)
    requires Shaped(cfg, s) && TakePhase(cfg, s).Ok?
    ensures Eased(s, TakePhase(cfg, s).value.s)
  {
    TakeIsLegal(cfg, s.ch, s.cq, NumQueues(cfg));
  }

  lemma ChooseEases(cfg: Config, s: State)
    requires MidInv(cfg, s, s.clk, s.rf)
    ensures ChoosePhase(cfg, s).Ok? && Eased(s, ChoosePhase(cfg, s).value.s)
  {
    ChooseKeeps(cfg, s);
    var finished := FinishEases(cfg, s);
    if finished.cmd.None? {
      TakeEases(cfg, finished.s);
      EasedTwice(s, finished.s, TakePhase(cfg, finished.s).value.s);
    }
  }

  lemma FinishEases(cfg: Config, s: State) returns (finished: Chosen)
    requires Shaped(cfg, s)
    ensures FinishPhase(cfg, s) == Ok(finished) && Shaped(cfg, finished.s) && Eased(s, finished.s)
  {
    if s.ch.refreshQ != [] {
      FinishIsLegal(cfg, s);
    }
    finished := FinishPhase(cfg, s).value;
  }

  lemma IssueEases(cfg: Config, s: State, cmd: Command)
    requires ValidChannel(cfg, s.ch) && Addressed(cfg, cmd) && IssueCommand(cfg, s, cmd).Ok?
    ensures Eased(s, IssueCommand(cfg, s, cmd).value)
  {
    AccountFrame(cfg, s, cmd);
  }

  lemma SecondEases(cfg: Config, s: State, first: Command)
    requires Shaped(cfg, s) && SecondPhase(cfg, s, first).Ok?
    ensures Eased(s, SecondPhase(cfg, s, first).value)
  {
    TakeEases(cfg, s);
    var second := TakePhase(cfg, s).value;
    if second.cmd.Some? && second.cmd.value.kind.IsReadWrite() != first.kind.IsReadWrite() {
      IssueEases(cfg, second.s, second.cmd.value);
      EasedTwice(s, second.s, IssueCommand(cfg, second.s, second.cmd.value).value);
    }
  }

  lemma IssuePhaseEases(cfg: Config, c: Chosen)
    requires ChosenOk(cfg, c) && IssuePhase(cfg, c).Ok?
    ensures Eased(c.s, IssuePhase(cfg, c).value)
  {
    if c.cmd.Some? {
      IssueIsShaped(cfg, c.s, c.cmd.value);
      IssueEases(cfg, c.s, c.cmd.value);
      var first := IssueCommand(cfg, c.s, c.cmd.value).value;
      if cfg.dualCommand {
        SecondEases(cfg, first, c.cmd.value);
        EasedTwice(c.s, first, SecondPhase(cfg, first, c.cmd.value).value);
      }
    }
  }

  /** The state that a tick schedules from. */
  lemma BeforeScheduling(cfg: Config, s: State) returns (issued: State)
    requires Inv(cfg, s)
    ensures ClockTick(cfg, s).Ok? && MidInv(cfg, issued, issued.clk, issued.rf) && Eased(s, issued)
    ensures ClockTick(cfg, s).value.writeBuf == ScheduleTransaction(cfg, issued).writeBuf
    ensures var s', scheduled := ClockTick(cfg, s).value, ScheduleTransaction(cfg, issued);
            s'.readQ == scheduled.readQ && s'.unifiedQ == scheduled.unifiedQ && s'.cq.queues == scheduled.cq.queues
  {
    BeginKeeps(cfg, s);
    var begun := RefreshPhase(cfg, s);
    ChooseEases(cfg, begun);
    ChooseAndIssueKeep(cfg, begun);
    var c := ChoosePhase(cfg, begun).value;
    IssuePhaseEases(cfg, c);
    issued := IssuePhase(cfg, c).value;
    EasedTwice(begun, c.s, issued);
  }

  lemma NoReadIsQueued(cfg: Config, s: State)
    requires LineInv(cfg, s) && !cfg.unifiedQueue && s.pendRd == []
    ensures s.readQ == []
  {
    if s.readQ != [] {
      var a := s.readQ[0].addr;
      NoReadWaits(cfg, s, a);
    }
  }

  /** Some queued transaction's command queue has room. */
  ghost predicate SomeRoom(cfg: Config, qs: Queues, q: seq<Transaction>)
    requires cfg.WellFormed() && |qs.queues| == NumQueues(cfg)
  {
    exists i :: 0 <= i < |q| && Room(cfg, qs, q[i].addr)
  }

  lemma WriteIsScheduled(cfg: Config, s: State)
    requires LineInv(cfg, s) && DrainInv(cfg, s) && !cfg.unifiedQueue
    requires s.pendRd == [] && SomeRoom(cfg, s.cq, s.writeBuf)
    ensures |ScheduleTransaction(cfg, s).writeBuf| == |s.writeBuf| - 1
  {
    NoReadIsQueued(cfg, s);
    DrainSchedulesWrites(cfg, s);
    AcceptedIsFirst(cfg, s.cq, s.writeBuf, 0);
    var i := FirstAccepted(cfg, s.cq, s.writeBuf, 0).value;
    assert FirstWithRoom(cfg, s.cq, s.writeBuf, i) && !HasAddr(s.pendRd, s.writeBuf[i].addr);
  }

  lemma RoomRemains(cfg: Config, s: State, s': State)
    requires cfg.WellFormed() && |s.cq.queues| == NumQueues(cfg) && Eased(s, s') && SomeRoom(cfg, s.cq, s.writeBuf)
    ensures SomeRoom(cfg, s'.cq, s'.writeBuf)
  {
    var i :| 0 <= i < |s.writeBuf| && Room(cfg, s.cq, s.writeBuf[i].addr);
    HomeInRange(cfg, s.writeBuf[i].addr);
    assert Room(cfg, s'.cq, s'.writeBuf[i].addr);
  }

  /** In every run with split queues, while no read is pending, each tick takes one write out of the
      buffer, as long as one of them finds room in its command queue. */
  lemma TickDrainsBuffer(cfg: Config, states: seq<State>, inputs: seq<Input>, n: nat)
    requires Behaviour(cfg, states, inputs) && n < |states| && !cfg.unifiedQueue
    requires Shaped(cfg, states[n]) && states[n].pendRd == [] && SomeRoom(cfg, states[n].cq, states[n].writeBuf)
    ensures ClockTick(cfg, states[n]).Ok?
    ensures |ClockTick(cfg, states[n]).value.writeBuf| == |states[n].writeBuf| - 1
  {
    BehaviourKeepsInv(cfg, states, inputs, n);
    var issued := BeforeScheduling(cfg, states[n]);
    RoomRemains(cfg, states[n], issued);
    WriteIsScheduled(cfg, issued);
  }
}
