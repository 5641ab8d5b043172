/** How full the controller's queues get, and when its transactions are finished and handed back. */
module Occupancy {
  import opened Basics
  import opened DramTypes
  import opened Channel
  import opened CommandQueues
  import opened History
  import opened Controller
  import opened Ordering
  import opened OrderingSchedule
  import opened Runs
  import opened Scheduling

  // ---------------------------------------------------------------- queue sizes

  predicate WithinSizes(cfg: Config, s: State) {
    && |s.readQ| <= cfg.transQueueSize && |s.writeBuf| <= cfg.transQueueSize && |s.unifiedQ| <= cfg.transQueueSize
    && forall k :: 0 <= k < |s.cq.queues| ==> |s.cq.queues[k]| <= cfg.cmdQueueSize
  }

  lemma JoinedWithin(cfg: Config, qs: Queues, qs': Queues, t: Transaction)
    requires cfg.WellFormed() && |qs.queues| == NumQueues(cfg) && Room(cfg, qs, t.addr) && Joined(cfg, qs, qs', t)
    requires forall k :: 0 <= k < |qs.queues| ==> |qs.queues[k]| <= cfg.cmdQueueSize
    ensures forall k :: 0 <= k < |qs'.queues| ==> |qs'.queues[k]| <= cfg.cmdQueueSize
  {
    HomeInRange(cfg, t.addr);
  }

  lemma ScheduleWithin(cfg: Config, s: State)
    requires LineInv(cfg, s) && WithinSizes(cfg, s)
    ensures WithinSizes(cfg, ScheduleTransaction(cfg, s))
  {
    var q, counter := SourceQueue(cfg, s), Draining(cfg, s);
    ScheduleFrom(cfg, s, q, counter);
    var first := FirstAccepted(cfg, s.cq, q, 0);
    if first.Some? && !(!cfg.unifiedQueue && q[first.value].isWrite && HasAddr(s.pendRd, q[first.value].addr)) {
      JoinedWithin(cfg, s.cq, ScheduleTransaction(cfg, s).cq, q[first.value]);
    }
  }

  lemma TickWithin(cfg: Config, s: State)
    requires Inv(cfg, s) && WithinSizes(cfg, s)
    ensures ClockTick(cfg, s).Ok? && WithinSizes(cfg, ClockTick(cfg, s).value)
  {
    var issued := BeforeScheduling(cfg, s);
    ScheduleWithin(cfg, issued);
  }

  lemma SubmitWithin(cfg: Config, s: State, req: Request)
    requires WithinSizes(cfg, s) && WillAcceptTransaction(cfg, s, req.isWrite)
    requires if cfg.unifiedQueue then s.readQ == [] && s.writeBuf == [] else s.unifiedQ == []
    ensures WithinSizes(cfg, AddTransaction(cfg, s, req))
  {
  }

  lemma StepWithin(cfg: Config, s: State, input: Input, s': State)
    requires Inv(cfg, s) && Leads(cfg, s, input, s') && WithinSizes(cfg, s)
    ensures WithinSizes(cfg, s')
  {
    match input {
      case Submit(req) =>
        if WillAcceptTransaction(cfg, s, req.isWrite) {
          SubmitWithin(cfg, s, req);
        }
      case Cycle => TickWithin(cfg, s);
      case HandBack(_) =>
    }
  }

  lemma WithinLeadsOn(cfg: Config, states: seq<State>, inputs: seq<Input>, n: nat)
    requires Behaviour(cfg, states, inputs) && 0 < n < |states|
    requires Inv(cfg, states[n - 1]) && WithinSizes(cfg, states[n - 1])
    ensures WithinSizes(cfg, states[n])
  {
    assert LeadsAt(cfg, states, inputs, n - 1);
    StepWithin(cfg, states[n - 1], inputs[n - 1], states[n]);
  }

  /** In every run no queue exceeds its configured size. */
  lemma {:induction false} QueuesWithinSizes(cfg: Config, states: seq<State>, inputs: seq<Input>, n: nat)
    requires Behaviour(cfg, states, inputs) && n < |states|
    ensures WithinSizes(cfg, states[n])
    decreases n
  {
    if n == 0 {
      StartsWithin(cfg, states, inputs);
    } else {
      QueuesWithinSizes(cfg, states, inputs, n - 1);
      SizesLeadOn(cfg, states, inputs, n);
    }
  }

  lemma StartsWithin(cfg: Config, states: seq<State>, inputs: seq<Input>)
    requires Behaviour(cfg, states, inputs)
    ensures WithinSizes(cfg, states[0]) && TimesInv(cfg, states[0])
  {
  }

  lemma SizesLeadOn(cfg: Config, states: seq<State>, inputs: seq<Input>, n: nat)
    requires Behaviour(cfg, states, inputs) && 0 < n < |states| && WithinSizes(cfg, states[n - 1])
    ensures WithinSizes(cfg, states[n])
  {
    BehaviourKeepsInv(cfg, states, inputs, n - 1);
    WithinLeadsOn(cfg, states, inputs, n);
  }

  /** The transaction queue that a request would enter. */
  function EntryQueue(cfg: Config, s: State, isWrite: bool): seq<Transaction> {
    if cfg.unifiedQueue then s.unifiedQ else if isWrite then s.writeBuf else s.readQ
  }

  /** A request is refused exactly when its queue is full. */
  lemma RefusedIffFull(cfg: Config, states: seq<State>, inputs: seq<Input>, n: nat, isWrite: bool)
    requires Behaviour(cfg, states, inputs) && n < |states|
    ensures !WillAcceptTransaction(cfg, states[n], isWrite)
       <==> |EntryQueue(cfg, states[n], isWrite)| == cfg.transQueueSize
  {
    QueuesWithinSizes(cfg, states, inputs, n);
  }

  // ---------------------------------------------------------------- completion times

  /** The transaction was finished by a read command of its address. */
  ghost predicate ReadFrom(cfg: Config, h: seq<Issued>, t: Transaction) {
    exists i :: 0 <= i < |h| && h[i].cmd.kind.IsRead() && h[i].cmd.hexAddr == t.addr
                && t.complete == Deadline(h[i].clk, cfg.AL + cfg.CL + cfg.burstCycle)
  }

  /** It is complete one cycle after it was accepted or, for a read of DRAM, the read latency and a
      burst after its command. */
  ghost predicate OnTime(cfg: Config, h: seq<Issued>, t: Transaction) {
    t.complete == t.added + 1 || (!t.isWrite && ReadFrom(cfg, h, t))
  }

  ghost predicate AllOnTime(cfg: Config, h: seq<Issued>, q: seq<Transaction>) {
    forall i :: 0 <= i < |q| ==> OnTime(cfg, h, q[i])
  }

  ghost predicate TimesInv(cfg: Config, s: State) {
    AllOnTime(cfg, s.shadow.history, s.returnQ) && AllOnTime(cfg, s.shadow.history, s.shadow.delivered)
  }

  lemma LaterHistory(cfg: Config, h: seq<Issued>, c: Issued, q: seq<Transaction>)
    requires AllOnTime(cfg, h, q)
    ensures AllOnTime(cfg, h + [c], q)
  {
    forall k | 0 <= k < |q|
      ensures OnTime(cfg, h + [c], q[k])
    {
      assert OnTime(cfg, h, q[k]);
      if ReadFrom(cfg, h, q[k]) {
        var i :| 0 <= i < |h| && h[i].cmd.kind.IsRead() && h[i].cmd.hexAddr == q[k].addr
                 && q[k].complete == Deadline(h[i].clk, cfg.AL + cfg.CL + cfg.burstCycle);
        assert (h + [c])[i] == h[i];
      }
    }
  }

  lemma {:induction false} WithAddrHas(q: seq<Transaction>, a: nat)
    ensures forall i :: 0 <= i < |WithAddr(q, a)| ==> WithAddr(q, a)[i].addr == a && WithAddr(q, a)[i] in q
  {
    if q != [] {
      WithAddrHas(q[1..], a);
    }
  }

  /** The reads that a read command serves are complete on time. */
  lemma ServedOnTime(cfg: Config, h: seq<Issued>, cmd: Command, clk: nat, pending: seq<Transaction>)
    requires cmd.kind.IsRead() && AllOf(pending, false)
    ensures AllOnTime(cfg, h + [Issued(cmd, clk)], CompleteAt(WithAddr(pending, cmd.hexAddr), Deadline(clk, cfg.ReadDelay())))
  {
    var served := CompleteAt(WithAddr(pending, cmd.hexAddr), Deadline(clk, cfg.ReadDelay()));
    WithAddrHas(pending, cmd.hexAddr);
    forall k | 0 <= k < |served|
      ensures OnTime(cfg, h + [Issued(cmd, clk)], served[k])
    {
      assert WithAddr(pending, cmd.hexAddr)[k] in pending;
      assert (h + [Issued(cmd, clk)])[|h|].clk == clk;
    }
  }

  lemma IssueOnTime(cfg: Config, s: State, cmd: Command)
    requires ValidChannel(cfg, s.ch) && Addressed(cfg, cmd) && IssueCommand(cfg, s, cmd).Ok?
    requires TimesInv(cfg, s) && AllOf(s.pendRd, false)
    ensures TimesInv(cfg, IssueCommand(cfg, s, cmd).value)
  {
    AccountFrame(cfg, s, cmd);
    AccountQueues(cfg, s, cmd);
    LaterHistory(cfg, s.shadow.history, Issued(cmd, s.clk), s.returnQ);
    LaterHistory(cfg, s.shadow.history, Issued(cmd, s.clk), s.shadow.delivered);
    if cmd.kind.IsRead() {
      ServedOnTime(cfg, s.shadow.history, cmd, s.clk, s.pendRd);
    }
  }

  lemma SecondOnTime(cfg: Config, s: State, first: Command)
    requires Shaped(cfg, s) && SecondPhase(cfg, s, first).Ok?
    requires TimesInv(cfg, s) && AllOf(s.pendRd, false)
    ensures TimesInv(cfg, SecondPhase(cfg, s, first).value)
  {
    var second := TakePhase(cfg, s).value;
    if second.cmd.Some? && second.cmd.value.kind.IsReadWrite() != first.kind.IsReadWrite() {
      IssueOnTime(cfg, second.s, second.cmd.value);
    }
  }

  lemma IssuePhaseOnTime(cfg: Config, c: Chosen)
    requires ChosenInv(cfg, c) && ChosenOk(cfg, c) && IssuePhase(cfg, c).Ok? && TimesInv(cfg, c.s)
    ensures TimesInv(cfg, IssuePhase(cfg, c).value)
  {
    if c.cmd.Some? {
      IssueIsShaped(cfg, c.s, c.cmd.value);
      IssueOnTime(cfg, c.s, c.cmd.value);
      if cfg.dualCommand {
        IssueChosenMid(cfg, c);
        SecondOnTime(cfg, IssueCommand(cfg, c.s, c.cmd.value).value, c.cmd.value);
      }
    }
  }

  lemma ChoiceOnTime(cfg: Config, s: State)
    requires Shaped(cfg, s) && ChoosePhase(cfg, s).Ok? && TimesInv(cfg, s)
    ensures TimesInv(cfg, ChoosePhase(cfg, s).value.s)
  {
    assert ChoosePhase(cfg, s).value.s == s.(cq := ChoosePhase(cfg, s).value.s.cq);
  }

  lemma TickOnTime(cfg: Config, s: State)
    requires Inv(cfg, s) && TimesInv(cfg, s)
    ensures ClockTick(cfg, s).Ok? && TimesInv(cfg, ClockTick(cfg, s).value)
  {
    ClockTickKeeps(cfg, s);
    BeginKeeps(cfg, s);
    var begun := RefreshPhase(cfg, s);
    ChooseKeeps(cfg, begun);
    ChoiceOnTime(cfg, begun);
    IssuePhaseOnTime(cfg, ChoosePhase(cfg, begun).value);
    ScheduleKeepsPending(cfg, IssuePhase(cfg, ChoosePhase(cfg, begun).value).value);
  }

  lemma SubmitOnTime(cfg: Config, s: State, req: Request)
    requires TimesInv(cfg, s)
    ensures TimesInv(cfg, AddTransaction(cfg, s, req))
  {
  }

  lemma ReturnOnTime(cfg: Config, s: State, clk: nat)
    requires TimesInv(cfg, s)
    ensures TimesInv(cfg, ReturnDone(s, clk))
  {
  }

  lemma StepOnTime(cfg: Config, s: State, input: Input, s': State)
    requires Inv(cfg, s) && Leads(cfg, s, input, s') && TimesInv(cfg, s)
    ensures TimesInv(cfg, s')
  {
    match input {
      case Submit(req) => SubmitOnTime(cfg, s, req);
      case Cycle => TickOnTime(cfg, s);
      case HandBack(clk) => ReturnOnTime(cfg, s, clk);
    }
  }

  lemma OnTimeLeadsOn(cfg: Config, states: seq<State>, inputs: seq<Input>, n: nat)
    requires Behaviour(cfg, states, inputs) && 0 < n < |states|
    requires Inv(cfg, states[n - 1]) && TimesInv(cfg, states[n - 1])
    ensures TimesInv(cfg, states[n])
  {
    assert LeadsAt(cfg, states, inputs, n - 1);
    StepOnTime(cfg, states[n - 1], inputs[n - 1], states[n]);
  }

  /** In every run, every finished transaction is complete one cycle after it was accepted or, for a
      read of DRAM, the read latency and a burst after a read command of its address. */
  lemma {:induction false} CompletionTimes(cfg: Config, states: seq<State>, inputs: seq<Input>, n: nat)
    requires Behaviour(cfg, states, inputs) && n < |states|
    ensures AllOnTime(cfg, states[n].shadow.history, states[n].returnQ)
    ensures AllOnTime(cfg, states[n].shadow.history, states[n].shadow.delivered)
    decreases n
  {
    if n == 0 {
      StartsWithin(cfg, states, inputs);
    } else {
      CompletionTimes(cfg, states, inputs, n - 1);
      TimesLeadOn(cfg, states, inputs, n);
    }
  }

  lemma TimesLeadOn(cfg: Config, states: seq<State>, inputs: seq<Input>, n: nat)
    requires Behaviour(cfg, states, inputs) && 0 < n < |states| && TimesInv(cfg, states[n - 1])
    ensures TimesInv(cfg, states[n])
  {
    BehaviourKeepsInv(cfg, states, inputs, n - 1);
    OnTimeLeadsOn(cfg, states, inputs, n);
  }

  /** Handing back takes the first transaction that is complete, if there is one. */
  lemma HandsBackFirstComplete(s: State, clk: nat)
    ensures (forall i :: 0 <= i < |s.returnQ| ==> s.returnQ[i].complete > clk) ==> ReturnDone(s, clk) == s
    ensures forall i: nat :: FirstComplete(s.returnQ, clk, i) ==>
                               && ReturnDone(s, clk).returnQ == RemoveAt(s.returnQ, i)
                               && ReturnDone(s, clk).shadow.delivered == s.shadow.delivered + [s.returnQ[i]]
  {
    forall i: nat | FirstComplete(s.returnQ, clk, i)
      ensures FirstDone(s.returnQ, clk, 0) == Some(i)
    {
      FirstDoneIs(s.returnQ, clk, i, 0);
    }
  }

  lemma {:induction false} FirstDoneIs(q: seq<Transaction>, clk: nat, i: nat, j: nat)
    requires FirstComplete(q, clk, i) && j <= i
    ensures FirstDone(q, clk, j) == Some(i)
    decreases i - j
  {
    if j < i {
      FirstDoneIs(q, clk, i, j + 1);
    }
  }

  predicate FirstComplete(q: seq<Transaction>, clk: nat, i: nat) {
    i < |q| && q[i].complete <= clk && forall j :: 0 <= j < i ==> q[j].complete > clk
  }
}
