/** A run in which dual issue loses a command: one HBM bank whose column commands need no gap, two
    reads of its row, and one tick that takes both. */
module LostRun {
  import opened Basics
  import opened DramTypes
  import opened Timing
  import opened Bank
  import opened Channel
  import opened CommandQueues
  import opened RefreshUnit
  import opened History
  import opened Controller
  import opened Runs
  import opened LostCommands
  import opened ControllerTheorems

  /** Two columns of a single row. */
  function Place(a: nat): Address {
    Address(0, 0, 0, 0, 0, a % 2)
  }

  /** One rank, bank group and bank; a read may follow its activation after one cycle, and every
      other timing is zero. */
  function OneBank(): Config {
    Config(HBM, 1, 1, 1, 0, 0, 0, 0, 0, 0, 0, 0, 0, 0, 0, 0, 0, 0, 0, 0, 0, 0, 0, 1000, 1000, 0, 0, 0, 1, 1,
           PerRank, 8, 8, true, false, RankStaggered, true, Place)
  }

  const B: BankId := BankId(0, 0, 0)

  lemma OneBankIsConfigured()
    ensures Configured(OneBank()) && NumQueues(OneBank()) == 1 && OneBank().HasBank(B)
    ensures forall b :: OneBank().HasBank(b) ==> b == B
  {
  }

  function ReadOf(a: nat): Command {
    Command(Read, Place(a), a)
  }

  function Trans(a: nat): Transaction {
    Transaction(a, false, 0, 0, a)
  }

  /** What the run moves: its one command queue and the transactions, none of them written. */
  datatype Load = Load(queue: seq<Command>, waiting: seq<Transaction>, pending: seq<Transaction>, done: seq<Transaction>)

  /** Early in a run, before the first refresh is due. */
  ghost predicate At(s: State, clk: nat, rfClk: nat, load: Load) {
    && Shaped(OneBank(), s)
    && s.clk == s.cq.clk == clk < 1000 && s.rf.clk == rfClk
    && s.cq.queues == [load.queue] && s.cq.idx == 0 && !s.cq.inRef
    && s.ch.refreshQ == []
    && s.unifiedQ == load.waiting && s.pendRd == load.pending && s.returnQ == load.done
    && s.pendWr == [] && s.draining == 0
  }

  /** The bank is open at row 0 and can be read from cycle `from` on. */
  ghost predicate OpenFrom(s: State, from: nat) {
    B in s.ch.banks && s.ch.banks[B].state.Open? && s.ch.banks[B].openRow == 0 && s.ch.banks[B].timing[Slot(Read)] == from
  }

  ghost predicate Untouched(s: State) {
    && B in s.ch.banks && s.ch.banks[B].state.Closed?
    && (forall i :: 0 <= i < 10 ==> s.ch.banks[B].timing[i] == 0)
    && |s.ch.fourAw| == 1 && s.ch.fourAw[0] == []
  }

  // ---------------------------------------------------------------- outside the tick

  lemma Start()
    ensures At(InitialState(OneBank()), 0, 0, Load([], [], [], [])) && Untouched(InitialState(OneBank()))
    ensures InitialState(OneBank()).shadow.log == []
  {
    OneBankIsConfigured();
    InitialIsShaped(OneBank());
  }

  lemma Submitting(s: State, waiting: seq<Transaction>) returns (s': State)
    requires At(s, 0, 0, Load([], waiting, waiting, [])) && |s.shadow.log| == |waiting| < 8
    requires forall i :: 0 <= i < |waiting| ==> waiting[i].addr < |waiting|
    ensures Leads(OneBank(), s, Submit(Request(|waiting|, false, 0)), s')
    ensures var more := waiting + [Trans(|waiting|)]; At(s', 0, 0, Load([], more, more, []))
    ensures s'.ch == s.ch && |s'.shadow.log| == |waiting| + 1
  {
    assert !HasAddr(s.pendRd, |waiting|);
    assert !HasAddr(s.pendWr, |waiting|);
    s' := AddTransaction(OneBank(), s, Request(|waiting|, false, 0));
    assert s' == s.(pendRd := s'.pendRd, unifiedQ := s'.unifiedQ, shadow := s'.shadow);
  }

  lemma HandingBack(s: State, clk: nat, t: Transaction, pending: seq<Transaction>) returns (s': State)
    requires At(s, clk, clk, Load([], [], pending, [t])) && t.complete <= clk
    ensures Leads(OneBank(), s, HandBack(clk), s')
    ensures At(s', clk, clk, Load([], [], pending, []))
  {
    s' := ReturnDone(s, clk);
    assert FirstDone([t], clk, 0) == Some(0);
    assert RemoveAt([t], 0) == [];
  }

  // ---------------------------------------------------------------- phases of a tick

  lemma Begin(s: State, clk: nat, load: Load)
    requires At(s, clk, clk, load)
    ensures At(RefreshPhase(OneBank(), s), clk, clk + 1, load) && RefreshPhase(OneBank(), s).ch == s.ch
  {
    assert !Due(OneBank(), s.rf);
    assert s.ch.refreshQ + [] == s.ch.refreshQ;
  }

  lemma TakeNone(s: State, clk: nat, rfClk: nat, load: Load)
    requires At(s, clk, rfClk, load) && |load.queue| <= 1
    requires load.queue != [] ==> Addressed(OneBank(), load.queue[0])
                                  && GetReady(OneBank(), s.ch, load.queue[0], clk) == Ok(None)
    ensures TakePhase(OneBank(), s) == Ok(Chosen(s, None))
  {
    OneBankIsConfigured();
    var q := load.queue;
    assert AllPlaced(OneBank(), s.cq.queues[0], 0);
    assert FirstReady(OneBank(), s.ch, q, 0, clk, |q|) == Ok(None);
    assert FirstReady(OneBank(), s.ch, q, 0, clk, 0) == Ok(None);
    assert Take(OneBank(), s.ch, s.cq, 0) == Ok(Taken(s.cq, None));
  }

  lemma TakeFirst(s: State, clk: nat, rfClk: nat, load: Load, cmd: Command)
    requires At(s, clk, rfClk, load) && load.queue != []
    requires load.queue[0].kind.Read? && Addressed(OneBank(), load.queue[0])
    requires GetReady(OneBank(), s.ch, load.queue[0], clk) == Ok(Some(cmd)) && (cmd == load.queue[0] || cmd.kind.Activate?)
    ensures TakePhase(OneBank(), s).Ok?
    ensures var c := TakePhase(OneBank(), s).value;
            && c.cmd == Some(cmd)
            && c.s.ch == s.ch
            && At(c.s, clk, rfClk, if cmd.kind.Activate? then load else load.(queue := load.queue[1..]))
  {
    OneBankIsConfigured();
    var q := load.queue;
    assert AllPlaced(OneBank(), s.cq.queues[0], 0);
    assert FirstReady(OneBank(), s.ch, q, 0, clk, 0) == Ok(Some(Pick(cmd, 0, 0)));
    if cmd.kind.Read? {
      assert FindCommand(q, cmd, 0) == Some(0);
      assert RemoveAt(q, 0) == q[1..];
    }
  }

  lemma Scheduling(s: State, clk: nat, rfClk: nat, load: Load)
    requires At(s, clk, rfClk, load) && |load.queue| < 8
    requires load.waiting != [] ==> !load.waiting[0].isWrite
    ensures var s', w := ScheduleTransaction(OneBank(), s), load.waiting;
            && s'.ch == s.ch
            && At(s', clk, rfClk, if w == [] then load else load.(queue := load.queue + [ReadOf(w[0].addr)], waiting := w[1..]))
  {
    ScheduleIsShaped(OneBank(), s);
    OneBankIsConfigured();
    if load.waiting == [] {
      assert FirstAccepted(OneBank(), s.cq, [], 0) == None;
    } else {
      assert FirstAccepted(OneBank(), s.cq, load.waiting, 0) == Some(0);
      assert RemoveAt(load.waiting, 0) == load.waiting[1..];
    }
  }

  lemma Concluding(s: State, clk: nat, load: Load)
    requires At(s, clk, clk + 1, load) && |load.queue| < 8 && clk + 1 < 1000
    requires load.waiting != [] ==> !load.waiting[0].isWrite
    ensures var s', w := ConcludePhase(OneBank(), s), load.waiting;
            && s'.ch == s.ch
            && At(s', clk + 1, clk + 1,
                  if w == [] then load else load.(queue := load.queue + [ReadOf(w[0].addr)], waiting := w[1..]))
  {
    Scheduling(s, clk, clk + 1, load);
  }

  // ---------------------------------------------------------------- issuing

  /** A gap list with a single entry for reads. */
  lemma OneReadGap(gaps: seq<Gap>, k: nat, clk: nat)
    requires k < |gaps| && gaps[k].next == Read && gaps[k].cycles >= 0
    requires forall i :: 0 <= i < |gaps| && gaps[i].next == Read ==> i == k
    ensures LatestDeadline(gaps, Read, clk) == clk + gaps[k].cycles
  {
    LatestDeadlineIsMaximum(gaps, Read, clk);
    assert gaps[k] in gaps;
  }

  /** The latest deadline that a command gives to reads of the same bank. */
  lemma ReadDeadlines(clk: nat)
    ensures LatestDeadline(SameBank(OneBank(), Activate), Read, clk) == clk + 1
    ensures LatestDeadline(SameBank(OneBank(), Read), Read, clk) == clk
  {
    assert SameBank(OneBank(), Activate)[1] == Gap(Read, 1);
    assert SameBank(OneBank(), Read)[0] == Gap(Read, 0);
    OneReadGap(SameBank(OneBank(), Activate), 1, clk);
    OneReadGap(SameBank(OneBank(), Read), 0, clk);
  }

  lemma Activating(s: State, clk: nat, rfClk: nat, load: Load)
    requires At(s, clk, rfClk, load) && Untouched(s)
    ensures var act := Command(Activate, Place(0), 0);
            && GetReady(OneBank(), s.ch, ReadOf(0), clk) == Ok(Some(act))
            && IssueCommand(OneBank(), s, act).Ok?
            && At(IssueCommand(OneBank(), s, act).value, clk, rfClk, load)
            && OpenFrom(IssueCommand(OneBank(), s, act).value, clk + 1)
  {
    OneBankIsConfigured();
    var act := Command(Activate, Place(0), 0);
    IssueIsShaped(OneBank(), s, act);
    ReadDeadlines(clk);
    StatesKeepTiming(OneBank(), s.ch, act, B);
    RaiseSlot(UpdateStates(OneBank(), s.ch, act).value.banks[B].timing, Constraints(OneBank(), act, B), clk, Read);
  }

  lemma ServingFirst(s: State, clk: nat, rfClk: nat, load: Load)
    requires At(s, clk, rfClk, load) && load.done == [] && load.pending == [Trans(0), Trans(1)]
    ensures var s' := Account(OneBank(), s, ReadOf(0));
            && s'.pendRd == [Trans(1)] && s'.returnQ == [Trans(0).(complete := clk)]
            && s' == s.(pendRd := s'.pendRd, returnQ := s'.returnQ, shadow := s'.shadow)
    ensures IsPending(s, ReadOf(0))
  {
    assert s.pendRd[0].addr == 0;
    assert [Trans(0), Trans(1)][1..] == [Trans(1)] && [Trans(1)][1..] == [];
    assert WithAddr([Trans(1)], 0) == [] && WithoutAddr([Trans(1)], 0) == [Trans(1)];
    assert WithAddr(s.pendRd, 0) == [Trans(0)] && WithoutAddr(s.pendRd, 0) == [Trans(1)];
    assert CompleteAt([Trans(0)], clk) == [Trans(0).(complete := clk)];
  }

  lemma ReadingKeepsOpen(s: State, clk: nat)
    requires Shaped(OneBank(), s) && OpenFrom(s, clk)
    ensures Issue(OneBank(), s.ch, ReadOf(0), clk).Ok?
    ensures var ch := Issue(OneBank(), s.ch, ReadOf(0), clk).value;
            && OpenFrom(s.(ch := ch), clk) && ch.refreshQ == s.ch.refreshQ
  {
    OneBankIsConfigured();
    var cmd := ReadOf(0);
    ReadDeadlines(clk);
    StatesKeepTiming(OneBank(), s.ch, cmd, B);
    RaiseSlot(UpdateStates(OneBank(), s.ch, cmd).value.banks[B].timing, Constraints(OneBank(), cmd, B), clk, Read);
  }

  lemma Reading(s: State, clk: nat, rfClk: nat, load: Load)
    requires At(s, clk, rfClk, load) && OpenFrom(s, clk) && load.done == []
    requires load.pending == [Trans(0), Trans(1)]
    ensures Addressed(OneBank(), ReadOf(0)) && IssueCommand(OneBank(), s, ReadOf(0)).Ok?
    ensures At(IssueCommand(OneBank(), s, ReadOf(0)).value, clk, rfClk,
               load.(pending := [Trans(1)], done := [Trans(0).(complete := clk)]))
    ensures OpenFrom(IssueCommand(OneBank(), s, ReadOf(0)).value, clk)
  {
    OneBankIsConfigured();
    ServingFirst(s, clk, rfClk, load);
    ReadingKeepsOpen(s, clk);
    IssueIsShaped(OneBank(), s, ReadOf(0));
  }

  lemma ReadReadyIff(s: State, clk: nat, rfClk: nat, load: Load, from: nat, a: nat)
    requires At(s, clk, rfClk, load) && OpenFrom(s, from)
    ensures Addressed(OneBank(), ReadOf(a))
    ensures GetReady(OneBank(), s.ch, ReadOf(a), clk) == Ok(if clk >= from then Some(ReadOf(a)) else None)
  {
    OneBankIsConfigured();
  }

  // ---------------------------------------------------------------- ticks

  /** Nothing to issue: the oldest waiting transaction moves to the command queue. */
  lemma FirstTick(s: State, t: Transaction, u: Transaction) returns (s': State)
    requires At(s, 0, 0, Load([], [t, u], [t, u], [])) && Untouched(s) && !t.isWrite
    ensures Leads(OneBank(), s, Cycle, s')
    ensures At(s', 1, 1, Load([ReadOf(t.addr)], [u], [t, u], [])) && Untouched(s')
  {
    var load := Load([], [t, u], [t, u], []);
    Begin(s, 0, load);
    var begun := RefreshPhase(OneBank(), s);
    TakeNone(begun, 0, 1, load);
    Concluding(begun, 0, load);
    s' := ConcludePhase(OneBank(), begun);
    assert [t, u][1..] == [u] && [] + [ReadOf(t.addr)] == [ReadOf(t.addr)];
    assert ClockTick(OneBank(), s) == Ok(s');
  }

  /** After the activation nothing else is ready in that cycle. */
  lemma ActivateOnly(c: Chosen, load: Load) returns (issued: State)
    requires At(c.s, 1, 2, load) && Untouched(c.s) && load.queue == [ReadOf(0)]
    requires c.cmd == Some(Command(Activate, Place(0), 0)) && ChosenOk(OneBank(), c)
    ensures IssuePhase(OneBank(), c) == Ok(issued)
    ensures At(issued, 1, 2, load) && OpenFrom(issued, 2)
  {
    OneBankIsConfigured();
    Activating(c.s, 1, 2, load);
    issued := IssueCommand(OneBank(), c.s, c.cmd.value).value;
    ReadReadyIff(issued, 1, 2, load, 2, 0);
    TakeNone(issued, 1, 2, load);
  }

  lemma ChooseActivate(s: State, load: Load) returns (chosen: Chosen)
    requires At(s, 1, 2, load) && Untouched(s) && load.queue == [ReadOf(0)]
    ensures ChoosePhase(OneBank(), s) == Ok(chosen) && ChosenOk(OneBank(), chosen)
    ensures chosen.cmd == Some(Command(Activate, Place(0), 0))
    ensures At(chosen.s, 1, 2, load) && Untouched(chosen.s)
  {
    OneBankIsConfigured();
    Activating(s, 1, 2, load);
    TakeFirst(s, 1, 2, load, Command(Activate, Place(0), 0));
    chosen := TakePhase(OneBank(), s).value;
  }

  /** The row is activated. */
  lemma SecondTick(s: State) returns (s': State)
    requires At(s, 1, 1, Load([ReadOf(0)], [Trans(1)], [Trans(0), Trans(1)], [])) && Untouched(s)
    ensures Leads(OneBank(), s, Cycle, s')
    ensures At(s', 2, 2, Load([ReadOf(0), ReadOf(1)], [], [Trans(0), Trans(1)], [])) && OpenFrom(s', 2)
  {
    var load := Load([ReadOf(0)], [Trans(1)], [Trans(0), Trans(1)], []);
    Begin(s, 1, load);
    var chosen := ChooseActivate(RefreshPhase(OneBank(), s), load);
    var issued := ActivateOnly(chosen, load);
    s' := SecondWaits(issued);
  }

  /** The second read follows the first one into the command queue. */
  lemma SecondWaits(s: State) returns (s': State)
    requires At(s, 1, 2, Load([ReadOf(0)], [Trans(1)], [Trans(0), Trans(1)], [])) && OpenFrom(s, 2)
    ensures s' == ConcludePhase(OneBank(), s)
    ensures At(s', 2, 2, Load([ReadOf(0), ReadOf(1)], [], [Trans(0), Trans(1)], [])) && OpenFrom(s', 2)
  {
    Concluding(s, 1, Load([ReadOf(0)], [Trans(1)], [Trans(0), Trans(1)], []));
    s' := ConcludePhase(OneBank(), s);
    assert [Trans(1)][1..] == [] && [ReadOf(0)] + [ReadOf(1)] == [ReadOf(0), ReadOf(1)];
  }

  /** After the first read the second one is ready, leaves its queue and is not issued. */
  lemma ReadTwice(c: Chosen, load: Load) returns (issued: State)
    requires At(c.s, 2, 3, load) && OpenFrom(c.s, 2)
    requires load == Load([ReadOf(1)], [], [Trans(0), Trans(1)], [])
    requires c.cmd == Some(ReadOf(0)) && ChosenOk(OneBank(), c)
    ensures IssuePhase(OneBank(), c) == Ok(issued)
    ensures At(issued, 2, 3, Load([], [], [Trans(1)], [Trans(0).(complete := 2)]))
  {
    OneBankIsConfigured();
    Reading(c.s, 2, 3, load);
    var first := IssueCommand(OneBank(), c.s, ReadOf(0)).value;
    var read := load.(pending := [Trans(1)], done := [Trans(0).(complete := 2)]);
    ReadReadyIff(first, 2, 3, read, 2, 1);
    TakeFirst(first, 2, 3, read, ReadOf(1));
    assert [ReadOf(1)][1..] == [];
    issued := TakePhase(OneBank(), first).value.s;
  }

  /** Both reads leave the command queue, and only the first one is issued. */
  lemma ThirdTick(s: State) returns (s': State)
    requires At(s, 2, 2, Load([ReadOf(0), ReadOf(1)], [], [Trans(0), Trans(1)], [])) && OpenFrom(s, 2)
    ensures Leads(OneBank(), s, Cycle, s')
    ensures At(s', 3, 3, Load([], [], [Trans(1)], [Trans(0).(complete := 2)]))
  {
    var load := Load([ReadOf(0), ReadOf(1)], [], [Trans(0), Trans(1)], []);
    OneBankIsConfigured();
    Begin(s, 2, load);
    var begun := RefreshPhase(OneBank(), s);
    ReadReadyIff(begun, 2, 3, load, 2, 0);
    TakeFirst(begun, 2, 3, load, ReadOf(0));
    assert [ReadOf(0), ReadOf(1)][1..] == [ReadOf(1)];
    var chosen := TakePhase(OneBank(), begun).value;
    assert ChoosePhase(OneBank(), begun) == Ok(chosen);
    var issued := ReadTwice(chosen, load.(queue := [ReadOf(1)]));
    Concluding(issued, 2, Load([], [], [Trans(1)], [Trans(0).(complete := 2)]));
    s' := ConcludePhase(OneBank(), issued);
  }

  // ---------------------------------------------------------------- the run

  lemma TwoReads() returns (states: seq<State>, inputs: seq<Input>)
    ensures Behaviour(OneBank(), states, inputs)
    ensures inputs == [Submit(Request(0, false, 0)), Submit(Request(1, false, 0))]
    ensures At(states[2], 0, 0, Load([], [Trans(0), Trans(1)], [Trans(0), Trans(1)], [])) && Untouched(states[2])
  {
    OneBankIsConfigured();
    Start();
    var s0 := InitialState(OneBank());
    var s1 := Submitting(s0, []);
    assert [] + [Trans(0)] == [Trans(0)];
    var s2 := Submitting(s1, [Trans(0)]);
    assert [Trans(0)] + [Trans(1)] == [Trans(0), Trans(1)];
    states, inputs := [s0], [];
    Extend(OneBank(), states, inputs, Submit(Request(0, false, 0)), s1);
    states, inputs := states + [s1], inputs + [Submit(Request(0, false, 0))];
    Extend(OneBank(), states, inputs, Submit(Request(1, false, 0)), s2);
    states, inputs := states + [s2], inputs + [Submit(Request(1, false, 0))];
  }

  lemma ThenFirstTick(states: seq<State>, inputs: seq<Input>) returns (s': State)
    requires Behaviour(OneBank(), states, inputs)
    requires At(states[|inputs|], 0, 0, Load([], [Trans(0), Trans(1)], [Trans(0), Trans(1)], [])) && Untouched(states[|inputs|])
    ensures Behaviour(OneBank(), states + [s'], inputs + [Cycle])
    ensures At(s', 1, 1, Load([ReadOf(0)], [Trans(1)], [Trans(0), Trans(1)], [])) && Untouched(s')
  {
    s' := FirstTick(states[|inputs|], Trans(0), Trans(1));
    Extend(OneBank(), states, inputs, Cycle, s');
  }

  lemma ThenSecondTick(states: seq<State>, inputs: seq<Input>) returns (s': State)
    requires Behaviour(OneBank(), states, inputs)
    requires At(states[|inputs|], 1, 1, Load([ReadOf(0)], [Trans(1)], [Trans(0), Trans(1)], [])) && Untouched(states[|inputs|])
    ensures Behaviour(OneBank(), states + [s'], inputs + [Cycle])
    ensures At(s', 2, 2, Load([ReadOf(0), ReadOf(1)], [], [Trans(0), Trans(1)], [])) && OpenFrom(s', 2)
  {
    s' := SecondTick(states[|inputs|]);
    Extend(OneBank(), states, inputs, Cycle, s');
  }

  lemma ThenThirdTick(states: seq<State>, inputs: seq<Input>) returns (s': State)
    requires Behaviour(OneBank(), states, inputs)
    requires At(states[|inputs|], 2, 2, Load([ReadOf(0), ReadOf(1)], [], [Trans(0), Trans(1)], []))
    requires OpenFrom(states[|inputs|], 2)
    ensures Behaviour(OneBank(), states + [s'], inputs + [Cycle])
    ensures At(s', 3, 3, Load([], [], [Trans(1)], [Trans(0).(complete := 2)]))
  {
    s' := ThirdTick(states[|inputs|]);
    Extend(OneBank(), states, inputs, Cycle, s');
  }

  lemma ThenHandBack(states: seq<State>, inputs: seq<Input>) returns (s': State)
    requires Behaviour(OneBank(), states, inputs)
    requires At(states[|inputs|], 3, 3, Load([], [], [Trans(1)], [Trans(0).(complete := 2)]))
    ensures Behaviour(OneBank(), states + [s'], inputs + [HandBack(3)])
    ensures At(s', 3, 3, Load([], [], [Trans(1)], []))
  {
    s' := HandingBack(states[|inputs|], 3, Trans(0).(complete := 2), [Trans(1)]);
    Extend(OneBank(), states, inputs, HandBack(3), s');
  }

  /** Two reads are submitted, the clock ticks three times and the finished read is handed back.
      Then all queues report empty although the second read is still pending: a tick has lost its
      command. */
  lemma DualIssueLosesARead() returns (states: seq<State>, inputs: seq<Input>)
    ensures Behaviour(OneBank(), states, inputs)
    ensures inputs == [Submit(Request(0, false, 0)), Submit(Request(1, false, 0)), Cycle, Cycle, Cycle, HandBack(3)]
    ensures AllQueuesEmpty(OneBank(), states[6]) && HasAddr(states[6].pendRd, 1)
    ensures !LosesNothing(OneBank(), states, inputs, 6)
  {
    states, inputs := AfterThreeTicks();
    var s6 := ThenHandBack(states, inputs);
    states, inputs := states + [s6], inputs + [HandBack(3)];
    PendingMeansLost(states, inputs, 6);
  }

  lemma AfterOneTick() returns (states: seq<State>, inputs: seq<Input>)
    ensures Behaviour(OneBank(), states, inputs)
    ensures inputs == [Submit(Request(0, false, 0)), Submit(Request(1, false, 0)), Cycle]
    ensures At(states[3], 1, 1, Load([ReadOf(0)], [Trans(1)], [Trans(0), Trans(1)], [])) && Untouched(states[3])
  {
    states, inputs := TwoReads();
    var s3 := ThenFirstTick(states, inputs);
    states, inputs := states + [s3], inputs + [Cycle];
  }

  lemma AfterThreeTicks() returns (states: seq<State>, inputs: seq<Input>)
    ensures Behaviour(OneBank(), states, inputs)
    ensures inputs == [Submit(Request(0, false, 0)), Submit(Request(1, false, 0)), Cycle, Cycle, Cycle]
    ensures At(states[5], 3, 3, Load([], [], [Trans(1)], [Trans(0).(complete := 2)]))
  {
    states, inputs := AfterOneTick();
    var s4 := ThenSecondTick(states, inputs);
    states, inputs := states + [s4], inputs + [Cycle];
    var s5 := ThenThirdTick(states, inputs);
    states, inputs := states + [s5], inputs + [Cycle];
  }

  lemma PendingMeansLost(states: seq<State>, inputs: seq<Input>, n: nat)
    requires Behaviour(OneBank(), states, inputs) && n < |states|
    requires At(states[n], 3, 3, Load([], [], [Trans(1)], []))
    ensures AllQueuesEmpty(OneBank(), states[n]) && HasAddr(states[n].pendRd, 1)
    ensures !LosesNothing(OneBank(), states, inputs, n)
  {
    assert states[n].pendRd[0].addr == 1;
    if LosesNothing(OneBank(), states, inputs, n) {
      EmptyMeansAllDelivered(OneBank(), states, inputs, n);
      assert false;
    }
  }
}
