/** Whole runs of the controller: for every configuration and every sequence of submissions,
    clock ticks and hand-backs. */
module Runs {
  import opened DramTypes
  import opened Channel
  import opened CommandQueues
  import opened RefreshUnit
  import opened History
  import opened Controller
  import opened Ordering
  import opened OrderingIssue
  import opened OrderingSchedule
  import opened DualIssue

  /** A submission that finds its queue full is refused (JedecDRAMSystem::AddTransaction). */
  datatype Input = Submit(req: Request) | Cycle | HandBack(clk: nat)

  function InitialState(cfg: Config): State {
    State(
      0,
      InitialChannel(cfg),
      Queues(seq(NumQueues(cfg), _ => []), 0, false, {}, 0),
      INITIAL_COUNTERS,
      [], [], [], [], [], [],
      0,
      Shadow([], map[], map[], map[], [], []))
  }

  function Step(cfg: Config, s: State, input: Input): (r: Result<State>)
    requires Shaped(cfg, s)
    ensures r.Ok? ==> Shaped(cfg, r.value)
  {
    match input
    case Submit(req) => Ok(if WillAcceptTransaction(cfg, s, req.isWrite) then AddTransaction(cfg, s, req) else s)
    case Cycle => ClockTick(cfg, s)
    case HandBack(clk) => Ok(ReturnDone(s, clk))
  }

  ghost predicate Leads(cfg: Config, s: State, input: Input, s': State) {
    Shaped(cfg, s) && Step(cfg, s, input) == Ok(s')
  }

  ghost predicate LeadsAt(cfg: Config, states: seq<State>, inputs: seq<Input>, i: nat)
    requires i < |inputs| && i + 1 < |states|
  {
    Leads(cfg, states[i], inputs[i], states[i + 1])
  }

  /** The states that a configured controller passes through. */
  ghost predicate Behaviour(cfg: Config, states: seq<State>, inputs: seq<Input>) {
    && Configured(cfg)
    && |states| == |inputs| + 1
    && states[0] == InitialState(cfg)
    && forall i :: 0 <= i < |inputs| ==> LeadsAt(cfg, states, inputs, i)
  }

  lemma InitialIsShaped(cfg: Config)
    requires Configured(cfg)
    ensures Shaped(cfg, InitialState(cfg))
    ensures HistoryInv(cfg, InitialState(cfg).ch, [], 0)
  {
  }

  // ---------------------------------------------------------------- the invariant

  ghost predicate Core(cfg: Config, s: State) {
    && Shaped(cfg, s)
    && LineInv(cfg, s)
    && DataInv(cfg, s)
    && SerialInv(s)
    && DrainInv(cfg, s)
    && HistoryInv(cfg, s.ch, s.shadow.history, s.clk)
    && s.cq.clk == s.clk
  }

  /** Queues wait for a refresh only while one is at the front of the refresh queue, and then
      exactly the queues of that refresh. */
  ghost predicate RefreshInv(cfg: Config, s: State)
    requires cfg.WellFormed() && cfg.Banks() > 0
  {
    if s.cq.inRef then s.ch.refreshQ != [] && s.cq.refIdx == RefIndices(cfg, s.ch.refreshQ[0])
    else s.cq.refIdx == {}
  }

  /** The configurations in which dual issue cannot lose a command. */
  predicate Lossless(cfg: Config) {
    !cfg.dualCommand || PositiveColumnGaps(cfg)
  }

  lemma BanksPositive(cfg: Config)
    requires cfg.WellFormed()
    ensures cfg.Banks() > 0
  {
  }

  ghost predicate Inv(cfg: Config, s: State) {
    && Core(cfg, s)
    && cfg.Banks() > 0
    && RefreshInv(cfg, s)
    && s.rf.clk == s.clk
    && (Lossless(cfg) ==> ExactInv(cfg, s))
  }

  lemma InitialInv(cfg: Config)
    requires Configured(cfg)
    ensures Inv(cfg, InitialState(cfg))
  {
    var s := InitialState(cfg);
    InitialIsShaped(cfg);
    BanksPositive(cfg);
    forall a: nat
      ensures LineOk(cfg, s, a) && Line(cfg, s, a) == Expected(s, a) && ValueOk(s, a)
    {
      HomeInRange(cfg, a);
      assert Line(cfg, s, a) == [];
    }
  }

  // ---------------------------------------------------------------- phases of a tick

  /** Neither lines nor data depend on the channel state or on the refresh counters. */
  lemma ChannelIrrelevant(cfg: Config, s: State, s': State)
    requires LineInv(cfg, s) && DataInv(cfg, s)
    requires s' == s.(ch := s'.ch, rf := s'.rf)
    ensures LineInv(cfg, s') && DataInv(cfg, s')
    ensures forall a: nat :: Line(cfg, s', a) == Line(cfg, s, a)
  {
    forall a: nat
      ensures LineOk(cfg, s', a) && Line(cfg, s', a) == Line(cfg, s, a)
    {
      assert LineOk(cfg, s, a);
      assert Waiting(cfg, s') == Waiting(cfg, s);
    }
    FewerWaitingKeepsData(cfg, s, s');
  }

  lemma RefreshPhaseKeeps(cfg: Config, s: State)
    requires Core(cfg, s)
    ensures Core(cfg, RefreshPhase(cfg, s))
    ensures ExactInv(cfg, s) ==> ExactInv(cfg, RefreshPhase(cfg, s))
  {
    var s' := RefreshPhase(cfg, s);
    ChannelIrrelevant(cfg, s, s');
    RefreshQueueIrrelevant(cfg, s.ch, s'.ch, s.shadow.history, s.clk);
    if ExactInv(cfg, s) {
      forall a: nat
        ensures Line(cfg, s', a) == Expected(s', a)
      {
        assert Line(cfg, s, a) == Expected(s, a);
      }
    }
  }

  lemma RefreshQueueIrrelevant(cfg: Config, ch: Channel, ch': Channel, h: seq<Issued>, clk: nat)
    requires HistoryInv(cfg, ch, h, clk)
    requires ch' == ch.(refreshQ := ch'.refreshQ)
    ensures HistoryInv(cfg, ch', h, clk)
  {
  }

  /** Marking queues for a refresh leaves their contents, and so the invariant, alone. */
  lemma MarkingKeeps(cfg: Config, s: State, qs: Queues)
    requires Core(cfg, s) && ValidQueues(cfg, qs) && qs.queues == s.cq.queues && qs.clk == s.cq.clk
    ensures Core(cfg, s.(cq := qs)) && (ExactInv(cfg, s) ==> ExactInv(cfg, s.(cq := qs)))
  {
    TakeNothing(cfg, s, qs);
    if ExactInv(cfg, s) {
      QueuesSameKeepsExact(cfg, s, qs);
    }
  }

  lemma FinishPhaseKeeps(cfg: Config, s: State)
    requires Core(cfg, s)
    ensures FinishPhase(cfg, s).Ok?
    ensures var c := FinishPhase(cfg, s).value;
            && Core(cfg, c.s)
            && c.s == s.(cq := c.s.cq)
            && (c.cmd.Some? ==> IssueReady(cfg, c.s, c.cmd.value) && !c.cmd.value.kind.IsReadWrite())
            && (ExactInv(cfg, s) ==> ExactInv(cfg, c.s))
  {
    if s.ch.refreshQ != [] {
      FinishIsLegal(cfg, s);
      var f := RefreshStep(cfg, s.ch, s.cq).value;
      MarkingKeeps(cfg, s, f.qs);
      if f.cmd.Some? {
        FinishKind(cfg, s);
      }
    }
  }

  /** Finishing a refresh yields the refresh itself or a precharge. */
  lemma FinishKind(cfg: Config, s: State)
    requires Shaped(cfg, s) && s.ch.refreshQ != []
    requires RefreshStep(cfg, s.ch, s.cq).Ok? && RefreshStep(cfg, s.ch, s.cq).value.cmd.Some?
    ensures var c := RefreshStep(cfg, s.ch, s.cq).value.cmd.value;
            c.kind.Precharge? || c == s.ch.refreshQ[0]
    ensures RefreshStep(cfg, s.ch, s.cq).value.cmd.value.addr.rank == s.ch.refreshQ[0].addr.rank
  {
    if s.ch.refreshQ[0].kind.Refresh? {
      RankReadyMeaning(cfg, s.ch, s.ch.refreshQ[0], s.cq.clk, 0, 0, 0);
    }
  }

  lemma QueuesSameKeepsExact(cfg: Config, s: State, qs: Queues)
    requires LineInv(cfg, s) && ExactInv(cfg, s) && LineInv(cfg, s.(cq := qs))
    requires qs.queues == s.cq.queues
    ensures ExactInv(cfg, s.(cq := qs))
  {
    var s' := s.(cq := qs);
    forall a: nat
      ensures Line(cfg, s', a) == Expected(s', a)
    {
      assert Line(cfg, s, a) == Expected(s, a);
      assert Waiting(cfg, s') == Waiting(cfg, s);
    }
  }

  lemma TakePhaseKeeps(cfg: Config, s: State)
    requires Core(cfg, s)
    ensures TakePhase(cfg, s).Ok?
    ensures var c := TakePhase(cfg, s).value;
            && Core(cfg, c.s)
            && c.s == s.(cq := c.s.cq) && c.s.cq.inRef == s.cq.inRef && c.s.cq.refIdx == s.cq.refIdx
            && (c.cmd.Some? ==> IssueReady(cfg, c.s, c.cmd.value) && !c.cmd.value.kind.IsRefresh())
            && (ExactInv(cfg, s) ==>
                  if c.cmd.Some? && c.cmd.value.kind.IsReadWrite() then ExactAfter(cfg, c.s, c.cmd.value) else ExactInv(cfg, c.s))
  {
    TakeIsLegal(cfg, s.ch, s.cq, NumQueues(cfg));
    var t := Take(cfg, s.ch, s.cq, NumQueues(cfg)).value;
    TakeKeeps(cfg, s, t);
    if ExactInv(cfg, s) {
      if t.pick.Some? && t.pick.value.cmd.kind.IsReadWrite() {
        TakeKeepsExact(cfg, s, t);
      } else {
        QueuesSameKeepsExact(cfg, s, t.qs);
      }
    }
  }

  /** Issuing a ready and legal command never aborts and keeps the invariant. */
  lemma IssueStep(cfg: Config, s: State, cmd: Command)
    requires Core(cfg, s) && IssueReady(cfg, s, cmd)
    requires Issuable(cfg, s.ch, cmd, s.clk) && !cmd.kind.SrefEnter?
    ensures IssueCommand(cfg, s, cmd).Ok?
    ensures Core(cfg, IssueCommand(cfg, s, cmd).value)
    ensures ExactAfter(cfg, s, cmd) ==> ExactInv(cfg, IssueCommand(cfg, s, cmd).value)
  {
    IssueKeepsHistory(cfg, s.ch, s.shadow.history, cmd, s.clk);
    IssueIsShaped(cfg, s, cmd);
    AccountKeepsData(cfg, s, cmd);
    AccountKeepsSerials(cfg, s, cmd);
    AccountFrame(cfg, s, cmd);
    var ch := Issue(cfg, s.ch, cmd, s.clk).value;
    assert IssueCommand(cfg, s, cmd).value == Account(cfg, s, cmd).(ch := ch);
    WithChannel(cfg, Account(cfg, s, cmd), ch);
    if ExactAfter(cfg, s, cmd) {
      AccountKeepsExact(cfg, s, cmd);
    }
  }

  /** Putting the updated channel in place keeps everything that does not speak of it. */
  lemma WithChannel(cfg: Config, s: State, ch: Channel)
    requires LineInv(cfg, s) && DataInv(cfg, s)
    ensures LineInv(cfg, s.(ch := ch)) && DataInv(cfg, s.(ch := ch))
    ensures ExactInv(cfg, s) ==> ExactInv(cfg, s.(ch := ch))
    ensures SerialInv(s) ==> SerialInv(s.(ch := ch))
  {
    ChannelIrrelevant(cfg, s, s.(ch := ch));
    if ExactInv(cfg, s) {
      forall a: nat
        ensures Line(cfg, s.(ch := ch), a) == Expected(s.(ch := ch), a)
      {
        assert Line(cfg, s, a) == Expected(s, a);
      }
    }
  }

  lemma AccountFrame(cfg: Config, s: State, cmd: Command)
    ensures var s' := Account(cfg, s, cmd);
            && s'.draining == s.draining && s'.writeBuf == s.writeBuf && s'.cq == s.cq && s'.ch == s.ch && s'.clk == s.clk && s'.rf == s.rf
            && s'.shadow.history == s.shadow.history + [Issued(cmd, s.clk)]
  {
  }

  /** A command that is not a column command leaves exact lines exact. */
  lemma OtherCommandExact(cfg: Config, s: State, cmd: Command)
    requires LineInv(cfg, s) && ExactInv(cfg, s) && !cmd.kind.IsReadWrite()
    ensures ExactAfter(cfg, s, cmd)
  {
  }

  /** After a column command, the second command of the cycle is never another one. */
  lemma SecondIsOther(cfg: Config, s: State, cmd: Command)
    requires Core(cfg, s) && PositiveColumnGaps(cfg)
    requires Addressed(cfg, cmd) && cmd.kind.IsReadWrite()
    requires IssueCommand(cfg, s, cmd).Ok? && Shaped(cfg, IssueCommand(cfg, s, cmd).value)
    requires TakePhase(cfg, IssueCommand(cfg, s, cmd).value).Ok?
    ensures var c := TakePhase(cfg, IssueCommand(cfg, s, cmd).value).value;
            c.cmd.Some? ==> !c.cmd.value.kind.IsReadWrite()
  {
    var s' := IssueCommand(cfg, s, cmd).value;
    TakeIsLegal(cfg, s'.ch, s'.cq, NumQueues(cfg));
    AccountFrame(cfg, s, cmd);
    assert s'.cq.clk == s.clk && s'.ch == Issue(cfg, s.ch, cmd, s.clk).value;
    PickIsOther(cfg, s.ch, cmd, s.clk, s'.cq, Take(cfg, s'.ch, s'.cq, NumQueues(cfg)).value);
  }

  lemma PickIsOther(cfg: Config, ch: Channel, cmd: Command, clk: nat, qs: Queues, t: Taken)
    requires ValidChannel(cfg, ch) && Awake(ch) && PositiveColumnGaps(cfg)
    requires Addressed(cfg, cmd) && cmd.kind.IsReadWrite()
    requires Issue(cfg, ch, cmd, clk).Ok? && ValidQueues(cfg, qs) && qs.clk == clk
    requires TakenOk(cfg, Issue(cfg, ch, cmd, clk).value, qs, t)
    ensures t.pick.Some? ==> !t.pick.value.cmd.kind.IsReadWrite()
  {
    if t.pick.Some? && t.pick.value.cmd.kind.IsReadWrite() {
      SecondColumnNotReady(cfg, ch, cmd, t.pick.value.cmd, clk);
    }
  }

  /** A chosen command with the invariant it has to meet before it is issued. */
  ghost predicate ChosenInv(cfg: Config, c: Chosen) {
    && Core(cfg, c.s)
    && cfg.Banks() > 0
    && RefreshInv(cfg, c.s)
    && (c.cmd.Some? ==>
          && Issuable(cfg, c.s.ch, c.cmd.value, c.s.clk)
          && !c.cmd.value.kind.SrefEnter?
          && IssueReady(cfg, c.s, c.cmd.value)
          && (c.cmd.value.kind.IsRefresh() ==> !c.s.cq.inRef))
    && (Lossless(cfg) ==>
          if c.cmd.Some? && c.cmd.value.kind.IsReadWrite() then ExactAfter(cfg, c.s, c.cmd.value) else ExactInv(cfg, c.s))
  }

  lemma FinishChoiceKeeps(cfg: Config, s: State)
    requires Core(cfg, s) && cfg.Banks() > 0 && RefreshInv(cfg, s)
    requires Lossless(cfg) ==> ExactInv(cfg, s)
    ensures FinishPhase(cfg, s).Ok? && ChosenInv(cfg, FinishPhase(cfg, s).value)
  {
    FinishPhaseKeeps(cfg, s);
    if s.ch.refreshQ != [] {
      FinishIsLegal(cfg, s);
      if RefreshStep(cfg, s.ch, s.cq).value.cmd.Some? {
        FinishKind(cfg, s);
      }
    }
  }

  lemma TakeChoiceKeeps(cfg: Config, s: State)
    requires Core(cfg, s) && cfg.Banks() > 0 && RefreshInv(cfg, s)
    requires Lossless(cfg) ==> ExactInv(cfg, s)
    ensures TakePhase(cfg, s).Ok? && ChosenInv(cfg, TakePhase(cfg, s).value)
  {
    TakePhaseKeeps(cfg, s);
  }

  lemma ChooseKeeps(cfg: Config, s: State)
    requires Core(cfg, s) && cfg.Banks() > 0 && RefreshInv(cfg, s)
    requires Lossless(cfg) ==> ExactInv(cfg, s)
    ensures ChoosePhase(cfg, s).Ok? && ChosenInv(cfg, ChoosePhase(cfg, s).value)
    ensures ChoosePhase(cfg, s).value.s.rf == s.rf && ChoosePhase(cfg, s).value.s.clk == s.clk
  {
    FinishChoiceKeeps(cfg, s);
    FinishPhaseKeeps(cfg, s);
    var finished := FinishPhase(cfg, s).value;
    if finished.cmd.None? {
      TakeChoiceKeeps(cfg, finished.s);
      TakePhaseKeeps(cfg, finished.s);
    }
  }

  lemma OtherKeepsRefreshQueue(cfg: Config, s: State, cmd: Command)
    requires ValidChannel(cfg, s.ch) && Addressed(cfg, cmd) && !cmd.kind.IsRefresh()
    requires IssueCommand(cfg, s, cmd).Ok?
    ensures IssueCommand(cfg, s, cmd).value.ch.refreshQ == s.ch.refreshQ
    ensures IssueCommand(cfg, s, cmd).value.cq == s.cq
  {
  }

  lemma IssueKeepsRefreshInv(cfg: Config, s: State, cmd: Command)
    requires ValidChannel(cfg, s.ch) && Addressed(cfg, cmd) && cfg.Banks() > 0 && RefreshInv(cfg, s)
    requires cmd.kind.IsRefresh() ==> !s.cq.inRef
    requires IssueCommand(cfg, s, cmd).Ok?
    ensures RefreshInv(cfg, IssueCommand(cfg, s, cmd).value)
  {
  }

  lemma IssueChosen(cfg: Config, c: Chosen)
    requires ChosenInv(cfg, c) && c.cmd.Some?
    ensures var r := IssueCommand(cfg, c.s, c.cmd.value);
            && r.Ok?
            && Core(cfg, r.value)
            && RefreshInv(cfg, r.value)
            && (Lossless(cfg) ==> ExactInv(cfg, r.value))
  {
    if Lossless(cfg) && !c.cmd.value.kind.IsReadWrite() {
      OtherCommandExact(cfg, c.s, c.cmd.value);
    }
    IssueStep(cfg, c.s, c.cmd.value);
    IssueKeepsRefreshInv(cfg, c.s, c.cmd.value);
  }

  /** The invariant between two phases of a tick. */
  ghost predicate MidInv(cfg: Config, s: State, clk: nat, rf: Counters) {
    && Core(cfg, s)
    && cfg.Banks() > 0
    && RefreshInv(cfg, s)
    && (Lossless(cfg) ==> ExactInv(cfg, s))
    && s.clk == clk
    && s.rf == rf
  }

  lemma IssueChosenMid(cfg: Config, c: Chosen)
    requires ChosenInv(cfg, c) && c.cmd.Some?
    ensures IssueCommand(cfg, c.s, c.cmd.value).Ok?
    ensures MidInv(cfg, IssueCommand(cfg, c.s, c.cmd.value).value, c.s.clk, c.s.rf)
  {
    IssueChosen(cfg, c);
    AccountFrame(cfg, c.s, c.cmd.value);
  }

  lemma SecondPhaseKeeps(cfg: Config, s: State, first: Command)
    requires MidInv(cfg, s, s.clk, s.rf)
    requires Lossless(cfg) && first.kind.IsReadWrite() && TakePhase(cfg, s).Ok? ==>
               var c := TakePhase(cfg, s).value; c.cmd.Some? ==> !c.cmd.value.kind.IsReadWrite()
    ensures SecondPhase(cfg, s, first).Ok?
    ensures MidInv(cfg, SecondPhase(cfg, s, first).value, s.clk, s.rf)
  {
    TakeChoiceKeeps(cfg, s);
    TakePhaseKeeps(cfg, s);
    var second := TakePhase(cfg, s).value;
    if second.cmd.Some? && second.cmd.value.kind.IsReadWrite() != first.kind.IsReadWrite() {
      IssueChosenMid(cfg, second);
    }
  }

  /** With positive gaps the second command after a column command is never another one. */
  lemma SecondIsAllowed(cfg: Config, c: Chosen)
    requires ChosenInv(cfg, c) && c.cmd.Some? && cfg.dualCommand
    requires IssueCommand(cfg, c.s, c.cmd.value).Ok? && Shaped(cfg, IssueCommand(cfg, c.s, c.cmd.value).value)
    ensures Lossless(cfg) && c.cmd.value.kind.IsReadWrite() && TakePhase(cfg, IssueCommand(cfg, c.s, c.cmd.value).value).Ok? ==>
              var second := TakePhase(cfg, IssueCommand(cfg, c.s, c.cmd.value).value).value;
              second.cmd.Some? ==> !second.cmd.value.kind.IsReadWrite()
  {
    if Lossless(cfg) && c.cmd.value.kind.IsReadWrite() && TakePhase(cfg, IssueCommand(cfg, c.s, c.cmd.value).value).Ok? {
      SecondIsOther(cfg, c.s, c.cmd.value);
    }
  }

  lemma IssuePhaseKeeps(cfg: Config, c: Chosen)
    requires ChosenInv(cfg, c)
    ensures IssuePhase(cfg, c).Ok?
    ensures MidInv(cfg, IssuePhase(cfg, c).value, c.s.clk, c.s.rf)
  {
    if c.cmd.Some? {
      IssueChosenMid(cfg, c);
      if cfg.dualCommand {
        SecondIsAllowed(cfg, c);
        SecondPhaseKeeps(cfg, IssueCommand(cfg, c.s, c.cmd.value).value, c.cmd.value);
      }
    }
  }

  lemma ScheduleKeepsExact(cfg: Config, s: State)
    requires LineInv(cfg, s) && ExactInv(cfg, s) && LineInv(cfg, ScheduleTransaction(cfg, s))
    ensures ExactInv(cfg, ScheduleTransaction(cfg, s))
  {
    var s' := ScheduleTransaction(cfg, s);
    ScheduleKeepsPending(cfg, s);
    forall a: nat
      ensures Line(cfg, s', a) == Expected(s', a)
    {
      assert Line(cfg, s, a) == Expected(s, a);
      ScheduleKeepsLine(cfg, s, a);
    }
  }

  lemma ScheduleStep(cfg: Config, s: State)
    requires Core(cfg, s) && cfg.Banks() > 0 && RefreshInv(cfg, s)
    ensures Core(cfg, ScheduleTransaction(cfg, s)) && RefreshInv(cfg, ScheduleTransaction(cfg, s))
    ensures ExactInv(cfg, s) ==> ExactInv(cfg, ScheduleTransaction(cfg, s))
  {
    ScheduleIsShaped(cfg, s);
    ScheduleKeeps(cfg, s);
    ScheduleKeepsPending(cfg, s);
    ScheduleKeepsDrain(cfg, s);
    if ExactInv(cfg, s) {
      ScheduleKeepsExact(cfg, s);
    }
  }

  /** A later clock only relaxes the history invariant, and no other part speaks of it. */
  lemma ClockAdvance(cfg: Config, s: State, clk: nat, rf: Counters)
    requires MidInv(cfg, s, clk, rf) && rf.clk == clk + 1
    ensures Inv(cfg, s.(clk := s.clk + 1, cq := s.cq.(clk := s.cq.clk + 1)))
  {
    LaterClocks(cfg, s);
  }

  lemma LaterQueueClock(cfg: Config, s: State)
    requires LineInv(cfg, s) && DataInv(cfg, s)
    ensures var s' := s.(cq := s.cq.(clk := s.cq.clk + 1));
            LineInv(cfg, s') && DataInv(cfg, s') && (ExactInv(cfg, s) ==> ExactInv(cfg, s'))
  {
    var qs := s.cq.(clk := s.cq.clk + 1);
    TakeNothing(cfg, s, qs);
    if ExactInv(cfg, s) {
      QueuesSameKeepsExact(cfg, s, qs);
    }
  }

  lemma LaterClocks(cfg: Config, s: State)
    requires LineInv(cfg, s) && DataInv(cfg, s)
    ensures var s' := s.(clk := s.clk + 1, cq := s.cq.(clk := s.cq.clk + 1));
            LineInv(cfg, s') && DataInv(cfg, s') && (ExactInv(cfg, s) ==> ExactInv(cfg, s'))
  {
    LaterQueueClock(cfg, s);
    LaterClock(cfg, s.(cq := s.cq.(clk := s.cq.clk + 1)));
  }

  lemma LaterClock(cfg: Config, s: State)
    requires LineInv(cfg, s) && DataInv(cfg, s)
    ensures LineInv(cfg, s.(clk := s.clk + 1)) && DataInv(cfg, s.(clk := s.clk + 1))
    ensures ExactInv(cfg, s) ==> ExactInv(cfg, s.(clk := s.clk + 1))
  {
    var s' := s.(clk := s.clk + 1);
    forall a: nat
      ensures LineOk(cfg, s', a) && Line(cfg, s', a) == Line(cfg, s, a)
    {
      assert LineOk(cfg, s, a);
      assert Waiting(cfg, s') == Waiting(cfg, s);
    }
    FewerWaitingKeepsData(cfg, s, s');
    if ExactInv(cfg, s) {
      forall a: nat
        ensures Line(cfg, s', a) == Expected(s', a)
      {
        assert Line(cfg, s, a) == Expected(s, a);
      }
    }
  }

  lemma ConcludeKeeps(cfg: Config, s: State)
    requires MidInv(cfg, s, s.clk, s.rf) && s.rf.clk == s.clk + 1
    ensures Inv(cfg, ConcludePhase(cfg, s))
  {
    var scheduled := ConcludeSchedules(cfg, s);
    ClockAdvance(cfg, scheduled, s.clk, s.rf);
  }

  /** The last phase schedules a request and then moves the clocks. */
  lemma ConcludeSchedules(cfg: Config, s: State) returns (scheduled: State)
    requires MidInv(cfg, s, s.clk, s.rf)
    ensures MidInv(cfg, scheduled, s.clk, s.rf)
    ensures ConcludePhase(cfg, s) == scheduled.(clk := scheduled.clk + 1, cq := scheduled.cq.(clk := scheduled.cq.clk + 1))
  {
    ScheduleKeepsMid(cfg, s);
    scheduled := ScheduleTransaction(cfg, s);
  }

  lemma ScheduleKeepsMid(cfg: Config, s: State)
    requires MidInv(cfg, s, s.clk, s.rf)
    ensures MidInv(cfg, ScheduleTransaction(cfg, s), s.clk, s.rf)
  {
    ScheduleStep(cfg, s);
    ScheduleKeepsPending(cfg, s);
  }

  lemma BeginKeeps(cfg: Config, s: State)
    requires Inv(cfg, s)
    ensures MidInv(cfg, RefreshPhase(cfg, s), s.clk, Tick(cfg, s.rf))
  {
    RefreshPhaseKeeps(cfg, s);
  }

  lemma ClockTickKeeps(cfg: Config, s: State)
    requires Inv(cfg, s)
    ensures ClockTick(cfg, s).Ok?
    ensures Inv(cfg, ClockTick(cfg, s).value)
  {
    BeginKeeps(cfg, s);
    var begun := RefreshPhase(cfg, s);
    ChooseAndIssueKeep(cfg, begun);
    ConcludeKeeps(cfg, IssuePhase(cfg, ChoosePhase(cfg, begun).value).value);
  }

  lemma ChooseAndIssueKeep(cfg: Config, s: State)
    requires MidInv(cfg, s, s.clk, s.rf)
    ensures ChoosePhase(cfg, s).Ok? && IssuePhase(cfg, ChoosePhase(cfg, s).value).Ok?
    ensures MidInv(cfg, IssuePhase(cfg, ChoosePhase(cfg, s).value).value, s.clk, s.rf)
  {
    ChooseKeeps(cfg, s);
    IssuePhaseKeeps(cfg, ChoosePhase(cfg, s).value);
  }

  lemma SubmitKeeps(cfg: Config, s: State, req: Request)
    requires Inv(cfg, s)
    ensures Inv(cfg, AddTransaction(cfg, s, req))
  {
    AddKeepsData(cfg, s, req);
    AddKeepsSerials(cfg, s, req);
    AddFrame(cfg, s, req);
    if Lossless(cfg) {
      AddKeepsExact(cfg, s, req);
    }
  }

  lemma AddFrame(cfg: Config, s: State, req: Request)
    ensures var s' := AddTransaction(cfg, s, req);
            && s'.ch == s.ch && s'.cq == s.cq && s'.rf == s.rf && s'.clk == s.clk && s'.draining == s.draining
            && |s'.writeBuf| >= |s.writeBuf| && s'.shadow.history == s.shadow.history
  {
  }

  lemma HandBackKeeps(cfg: Config, s: State, clk: nat)
    requires Inv(cfg, s)
    ensures Inv(cfg, ReturnDone(s, clk))
  {
    ReturnKeeps(cfg, s, clk);
    ReturnKeepsSerials(s, clk);
    ReturnFrame(s, clk);
    if Lossless(cfg) {
      ReturnKeepsExact(cfg, s, clk);
    }
  }

  lemma ReturnFrame(s: State, clk: nat)
    ensures var s' := ReturnDone(s, clk);
            && s' == s.(returnQ := s'.returnQ, shadow := s'.shadow)
            && s'.shadow.history == s.shadow.history
  {
  }

  lemma ReturnKeepsExact(cfg: Config, s: State, clk: nat)
    requires LineInv(cfg, s) && ExactInv(cfg, s) && LineInv(cfg, ReturnDone(s, clk))
    ensures ExactInv(cfg, ReturnDone(s, clk))
  {
    var s' := ReturnDone(s, clk);
    ReturnFrame(s, clk);
    forall a: nat
      ensures Line(cfg, s', a) == Expected(s', a)
    {
      assert Line(cfg, s, a) == Expected(s, a);
      assert Waiting(cfg, s') == Waiting(cfg, s);
    }
  }

  lemma StepKeeps(cfg: Config, s: State, input: Input)
    requires Inv(cfg, s)
    ensures Step(cfg, s, input).Ok? && Inv(cfg, Step(cfg, s, input).value)
  {
    match input {
      case Submit(req) => SubmitKeeps(cfg, s, req);
      case Cycle => ClockTickKeeps(cfg, s);
      case HandBack(clk) => HandBackKeeps(cfg, s, clk);
    }
  }

  lemma InvStarts(cfg: Config, states: seq<State>, inputs: seq<Input>)
    requires Behaviour(cfg, states, inputs)
    ensures Inv(cfg, states[0])
  {
    InitialInv(cfg);
  }

  lemma {:induction false} BehaviourKeepsInv(cfg: Config, states: seq<State>, inputs: seq<Input>, n: nat)
    requires Behaviour(cfg, states, inputs) && n < |states|
    ensures Inv(cfg, states[n])
    decreases n
  {
    if n == 0 {
      InvStarts(cfg, states, inputs);
    } else {
      BehaviourKeepsInv(cfg, states, inputs, n - 1);
      assert LeadsAt(cfg, states, inputs, n - 1);
      InvLeadsOn(cfg, states, inputs, n);
    }
  }

  lemma InvLeadsOn(cfg: Config, states: seq<State>, inputs: seq<Input>, n: nat)
    requires 0 < n < |states| && |states| == |inputs| + 1
    requires Inv(cfg, states[n - 1]) && LeadsAt(cfg, states, inputs, n - 1)
    ensures Inv(cfg, states[n])
  {
    StepKeeps(cfg, states[n - 1], inputs[n - 1]);
  }

  /** From every reachable state every input leads on. */
  lemma NextStep(cfg: Config, states: seq<State>, inputs: seq<Input>, input: Input) returns (s': State)
    requires Behaviour(cfg, states, inputs)
    ensures Leads(cfg, states[|inputs|], input, s')
  {
    BehaviourKeepsInv(cfg, states, inputs, |inputs|);
    StepKeeps(cfg, states[|inputs|], input);
    s' := Step(cfg, states[|inputs|], input).value;
  }

  lemma LeadsAtAgree(cfg: Config, states: seq<State>, inputs: seq<Input>, states': seq<State>, inputs': seq<Input>, i: nat)
    requires i < |inputs| && i + 1 < |states| && LeadsAt(cfg, states, inputs, i)
    requires i < |inputs'| && i + 1 < |states'|
    requires inputs'[i] == inputs[i] && states'[i] == states[i] && states'[i + 1] == states[i + 1]
    ensures LeadsAt(cfg, states', inputs', i)
  {
  }

  lemma Extend(cfg: Config, states: seq<State>, inputs: seq<Input>, input: Input, s': State)
    requires Behaviour(cfg, states, inputs) && Leads(cfg, states[|inputs|], input, s')
    ensures Behaviour(cfg, states + [s'], inputs + [input])
  {
    forall i: nat | i <= |inputs|
      ensures LeadsAt(cfg, states + [s'], inputs + [input], i)
    {
      LeadsAtExtended(cfg, states, inputs, input, s', i);
    }
  }

  lemma LeadsAtExtended(cfg: Config, states: seq<State>, inputs: seq<Input>, input: Input, s': State, i: nat)
    requires Behaviour(cfg, states, inputs) && Leads(cfg, states[|inputs|], input, s') && i <= |inputs|
    ensures LeadsAt(cfg, states + [s'], inputs + [input], i)
  {
    if i < |inputs| {
      LeadsAtStart(cfg, states, inputs, input, s', i);
    } else {
      LeadsAtEnd(cfg, states, inputs, input, s');
    }
  }

  lemma LeadsAtStart(cfg: Config, states: seq<State>, inputs: seq<Input>, input: Input, s': State, i: nat)
    requires Behaviour(cfg, states, inputs) && i < |inputs|
    ensures LeadsAt(cfg, states + [s'], inputs + [input], i)
  {
    assert LeadsAt(cfg, states, inputs, i);
    LeadsAtAgree(cfg, states, inputs, states + [s'], inputs + [input], i);
  }

  lemma LeadsAtEnd(cfg: Config, states: seq<State>, inputs: seq<Input>, input: Input, s': State)
    requires |states| == |inputs| + 1 && Leads(cfg, states[|inputs|], input, s')
    ensures LeadsAt(cfg, states + [s'], inputs + [input], |inputs|)
  {
  }
}
