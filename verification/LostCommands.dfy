/** Dual issue takes a second command from its queue before it looks at its kind: exactly when a
    tick loses a command that way, and exactly when a run does. */
module LostCommands {
  import opened Basics
  import opened DramTypes
  import opened Controller
  import opened Ordering
  import opened OrderingIssue
  import opened OrderingSchedule
  import opened DualIssue
  import opened Runs

  /** The second pick of a tick that has just issued `first`. */
  function SecondPick(cfg: Config, c: Chosen): Option<Command>
    requires ChosenOk(cfg, c) && c.cmd.Some?
  {
    IssueIsShaped(cfg, c.s, c.cmd.value);
    match IssueCommand(cfg, c.s, c.cmd.value)
    case Abort => None
    case Ok(s) => match TakePhase(cfg, s) case Abort => None case Ok(second) => second.cmd
  }

  /** The branch that loses a command: a read or write has just been issued, and the second pick is
      a read or write as well. */
  predicate LosesPick(cfg: Config, c: Chosen)
    requires ChosenOk(cfg, c)
  {
    && cfg.dualCommand
    && c.cmd.Some? && c.cmd.value.kind.IsReadWrite()
    && SecondPick(cfg, c).Some? && SecondPick(cfg, c).value.kind.IsReadWrite()
  }

  /** The tick from `s` takes that branch. */
  predicate LosesCommand(cfg: Config, s: State)
    requires Shaped(cfg, s)
  {
    match ChoosePhase(cfg, RefreshPhase(cfg, s))
    case Abort => false
    case Ok(c) => LosesPick(cfg, c)
  }

  /** Each address waits in the queues exactly as it is pending. */
  ghost predicate Exact(cfg: Config, s: State) {
    LineInv(cfg, s) && ExactInv(cfg, s)
  }

  ghost predicate ExactChoice(cfg: Config, c: Chosen)
    requires LineInv(cfg, c.s)
  {
    if c.cmd.Some? && c.cmd.value.kind.IsReadWrite() then ExactAfter(cfg, c.s, c.cmd.value) else ExactInv(cfg, c.s)
  }

  // ---------------------------------------------------------------- one tick

  lemma ChooseIsExact(cfg: Config, s: State)
    requires MidInv(cfg, s, s.clk, s.rf) && ExactInv(cfg, s)
    ensures ChoosePhase(cfg, s).Ok? && ChosenInv(cfg, ChoosePhase(cfg, s).value)
    ensures ExactChoice(cfg, ChoosePhase(cfg, s).value)
  {
    ChooseKeeps(cfg, s);
    FinishPhaseKeeps(cfg, s);
    var finished := FinishPhase(cfg, s).value;
    if finished.cmd.None? {
      TakePhaseKeeps(cfg, finished.s);
    }
  }

  lemma FirstIsExact(cfg: Config, c: Chosen)
    requires ChosenInv(cfg, c) && c.cmd.Some? && ExactChoice(cfg, c)
    ensures IssueCommand(cfg, c.s, c.cmd.value).Ok?
    ensures MidInv(cfg, IssueCommand(cfg, c.s, c.cmd.value).value, c.s.clk, c.s.rf)
    ensures ExactInv(cfg, IssueCommand(cfg, c.s, c.cmd.value).value)
  {
    IssueChosenMid(cfg, c);
    if !c.cmd.value.kind.IsReadWrite() {
      OtherCommandExact(cfg, c.s, c.cmd.value);
    }
    IssueStep(cfg, c.s, c.cmd.value);
  }

  /** A lost command: it has left its queue and is not issued, nothing of its kind waits for its
      address any more, and its request stays pending. */
  ghost predicate Lost(cfg: Config, s: State, cmd: Command) {
    && LineInv(cfg, s)
    && cmd.kind.IsReadWrite()
    && HasAddr(if cmd.kind.IsRead() then s.pendRd else s.pendWr, cmd.hexAddr)
    && cmd.kind.IsWrite() !in Line(cfg, s, cmd.hexAddr)
  }

  lemma LostIsInexact(cfg: Config, s: State, cmd: Command)
    requires Lost(cfg, s, cmd)
    ensures !ExactInv(cfg, s)
  {
    assert cmd.kind.IsWrite() in Expected(s, cmd.hexAddr);
  }

  /** The second phase loses its pick or keeps the lines exact, according to the kinds. */
  lemma SecondLosesOrKeeps(cfg: Config, s: State, first: Command)
    requires MidInv(cfg, s, s.clk, s.rf) && ExactInv(cfg, s)
    ensures TakePhase(cfg, s).Ok? && SecondPhase(cfg, s, first).Ok?
    ensures var c, s' := TakePhase(cfg, s).value, SecondPhase(cfg, s, first).value;
            if c.cmd.Some? && c.cmd.value.kind.IsReadWrite() && first.kind.IsReadWrite()
            then Lost(cfg, s', c.cmd.value) && s'.shadow.history == s.shadow.history
            else Exact(cfg, s')
  {
    TakeChoiceKeeps(cfg, s);
    TakePhaseKeeps(cfg, s);
    var c := TakePhase(cfg, s).value;
    if c.cmd.Some? {
      if c.cmd.value.kind.IsReadWrite() != first.kind.IsReadWrite() {
        FirstIsExact(cfg, c);
      } else {
        assert IssueReady(cfg, c.s, c.cmd.value);
      }
    }
  }

  lemma SecondFollowsFirst(cfg: Config, c: Chosen, s: State)
    requires ChosenOk(cfg, c) && c.cmd.Some? && cfg.dualCommand
    requires IssueCommand(cfg, c.s, c.cmd.value) == Ok(s) && Shaped(cfg, s) && TakePhase(cfg, s).Ok?
    ensures IssuePhase(cfg, c) == SecondPhase(cfg, s, c.cmd.value)
    ensures SecondPick(cfg, c) == TakePhase(cfg, s).value.cmd
  {
    IssueIsShaped(cfg, c.s, c.cmd.value);
  }

  lemma IssueNone(cfg: Config, c: Chosen)
    requires ChosenOk(cfg, c) && c.cmd.None?
    ensures IssuePhase(cfg, c) == Ok(c.s) && !LosesPick(cfg, c)
  {
  }

  lemma IssueSingle(cfg: Config, c: Chosen)
    requires ChosenOk(cfg, c) && c.cmd.Some? && !cfg.dualCommand
    ensures IssuePhase(cfg, c) == IssueCommand(cfg, c.s, c.cmd.value) && !LosesPick(cfg, c)
  {
  }

  ghost predicate LosesOrKeeps(cfg: Config, c: Chosen, r: Result<State>)
    requires ChosenOk(cfg, c)
  {
    r.Ok? && if LosesPick(cfg, c) then Lost(cfg, r.value, SecondPick(cfg, c).value) else Exact(cfg, r.value)
  }

  lemma IssueDual(cfg: Config, c: Chosen, s: State)
    requires ChosenOk(cfg, c) && c.cmd.Some? && cfg.dualCommand
    requires IssueCommand(cfg, c.s, c.cmd.value) == Ok(s) && MidInv(cfg, s, s.clk, s.rf) && ExactInv(cfg, s)
    ensures LosesOrKeeps(cfg, c, IssuePhase(cfg, c))
  {
    SecondLosesOrKeeps(cfg, s, c.cmd.value);
    SecondFollowsFirst(cfg, c, s);
  }

  /** What issuing does in a tick: it loses the second pick in exactly the branch above, and keeps
      the lines exact otherwise. */
  lemma IssueLosesIff(cfg: Config, c: Chosen)
    requires ChosenInv(cfg, c) && ChosenOk(cfg, c) && ExactChoice(cfg, c)
    ensures LosesOrKeeps(cfg, c, IssuePhase(cfg, c))
  {
    if c.cmd.None? {
      IssueNone(cfg, c);
    } else {
      FirstIsExact(cfg, c);
      if cfg.dualCommand {
        IssueDual(cfg, c, IssueCommand(cfg, c.s, c.cmd.value).value);
      } else {
        IssueSingle(cfg, c);
      }
    }
  }

  /** The rest of a tick changes neither lines nor pending requests. */
  lemma ConcludeKeepsLines(cfg: Config, s: State, a: nat)
    requires Core(cfg, s) && cfg.Banks() > 0 && RefreshInv(cfg, s)
    ensures LineInv(cfg, ConcludePhase(cfg, s))
    ensures Line(cfg, ConcludePhase(cfg, s), a) == Line(cfg, s, a)
    ensures ConcludePhase(cfg, s).pendRd == s.pendRd && ConcludePhase(cfg, s).pendWr == s.pendWr
  {
    ScheduleKeepsLine(cfg, s, a);
    ScheduleKeepsPending(cfg, s);
    ScheduleStep(cfg, s);
    LaterClocksKeepLines(cfg, ScheduleTransaction(cfg, s), a);
  }

  lemma LaterClocksKeepLines(cfg: Config, s: State, a: nat)
    requires LineInv(cfg, s) && DataInv(cfg, s)
    ensures var s' := s.(clk := s.clk + 1, cq := s.cq.(clk := s.cq.clk + 1));
            LineInv(cfg, s') && Line(cfg, s', a) == Line(cfg, s, a)
  {
    LaterClocks(cfg, s);
    assert Waiting(cfg, s.(clk := s.clk + 1, cq := s.cq.(clk := s.cq.clk + 1))) == Waiting(cfg, s);
  }

  lemma ConcludeKeepsExactness(cfg: Config, s: State)
    requires Core(cfg, s) && cfg.Banks() > 0 && RefreshInv(cfg, s)
    ensures Exact(cfg, s) ==> Exact(cfg, ConcludePhase(cfg, s))
  {
    ConcludeKeepsLines(cfg, s, 0);
    var s' := ConcludePhase(cfg, s);
    if Exact(cfg, s) {
      forall a: nat
        ensures Line(cfg, s', a) == Expected(s', a)
      {
        ConcludeKeepsLines(cfg, s, a);
        assert Line(cfg, s, a) == Expected(s, a);
      }
    }
  }

  /** A tick from an exact state loses a command in exactly that branch: afterwards some request
      waits nowhere; otherwise the state is exact again. */
  lemma TickLosesIff(cfg: Config, s: State)
    requires Inv(cfg, s) && Exact(cfg, s)
    ensures ClockTick(cfg, s).Ok? && (Exact(cfg, ClockTick(cfg, s).value) <==> !LosesCommand(cfg, s))
    ensures LosesCommand(cfg, s) ==> exists cmd :: Lost(cfg, ClockTick(cfg, s).value, cmd)
  {
    BeginKeeps(cfg, s);
    RefreshPhaseKeeps(cfg, s);
    ChooseIsExact(cfg, RefreshPhase(cfg, s));
    var c := ChoosePhase(cfg, RefreshPhase(cfg, s)).value;
    IssueLosesIff(cfg, c);
    IssuePhaseKeeps(cfg, c);
    var issued := IssuePhase(cfg, c).value;
    if LosesPick(cfg, c) {
      var cmd := SecondPick(cfg, c).value;
      ConcludeKeepsLines(cfg, issued, cmd.hexAddr);
      assert Lost(cfg, ClockTick(cfg, s).value, cmd);
      LostIsInexact(cfg, ClockTick(cfg, s).value, cmd);
    } else {
      ConcludeKeepsExactness(cfg, issued);
    }
  }

  // ---------------------------------------------------------------- whole runs

  ghost predicate LosesNothingAt(cfg: Config, s: State, input: Input) {
    input.Cycle? ==> Shaped(cfg, s) && !LosesCommand(cfg, s)
  }

  /** No tick before the n-th state takes the losing branch. */
  ghost predicate LosesNothing(cfg: Config, states: seq<State>, inputs: seq<Input>, n: nat)
    requires |states| == |inputs| + 1 && n < |states|
  {
    forall m :: 0 <= m < n ==> LosesNothingAt(cfg, states[m], inputs[m])
  }

  lemma StepLosesIff(cfg: Config, s: State, input: Input)
    requires Inv(cfg, s) && Exact(cfg, s)
    ensures Step(cfg, s, input).Ok?
    ensures Exact(cfg, Step(cfg, s, input).value) <==> (input.Cycle? ==> !LosesCommand(cfg, s))
  {
    StepKeeps(cfg, s, input);
    match input {
      case Submit(req) =>
        if WillAcceptTransaction(cfg, s, req.isWrite) {
          AddKeepsExact(cfg, s, req);
        }
      case Cycle => TickLosesIff(cfg, s);
      case HandBack(clk) => ReturnKeepsExact(cfg, s, clk);
    }
  }

  lemma {:induction false} ExactWhileNothingIsLost(cfg: Config, states: seq<State>, inputs: seq<Input>, n: nat)
    requires Behaviour(cfg, states, inputs) && n < |states| && LosesNothing(cfg, states, inputs, n)
    ensures Exact(cfg, states[n])
    decreases n
  {
    if n == 0 {
      InitialInv(cfg);
      InitialIsExact(cfg);
    } else {
      var m := n - 1;
      assert LosesNothing(cfg, states, inputs, m);
      ExactWhileNothingIsLost(cfg, states, inputs, m);
      BehaviourKeepsInv(cfg, states, inputs, m);
      assert LeadsAt(cfg, states, inputs, m) && LosesNothingAt(cfg, states[m], inputs[m]);
      StepLosesIff(cfg, states[m], inputs[m]);
    }
  }

  lemma InitialIsExact(cfg: Config)
    requires Inv(cfg, InitialState(cfg))
    ensures Exact(cfg, InitialState(cfg))
  {
    forall a: nat
      ensures Line(cfg, InitialState(cfg), a) == Expected(InitialState(cfg), a)
    {
      HomeInRange(cfg, a);
      assert Line(cfg, InitialState(cfg), a) == [];
    }
  }

  /** In a run every address always waits in the queues exactly as it is pending if and only if no
      tick of the run takes the losing branch. */
  lemma ExactRunIff(cfg: Config, states: seq<State>, inputs: seq<Input>)
    requires Behaviour(cfg, states, inputs)
    ensures (forall n :: 0 <= n < |states| ==> Exact(cfg, states[n])) <==> LosesNothing(cfg, states, inputs, |inputs|)
  {
    if LosesNothing(cfg, states, inputs, |inputs|) {
      forall n | 0 <= n < |states|
        ensures Exact(cfg, states[n])
      {
        assert LosesNothing(cfg, states, inputs, n);
        ExactWhileNothingIsLost(cfg, states, inputs, n);
      }
    }
    if forall n :: 0 <= n < |states| ==> Exact(cfg, states[n]) {
      forall m | 0 <= m < |inputs|
        ensures LosesNothingAt(cfg, states[m], inputs[m])
      {
        BehaviourKeepsInv(cfg, states, inputs, m);
        assert LeadsAt(cfg, states, inputs, m);
        assert Exact(cfg, states[m]) && Exact(cfg, states[m + 1]);
        StepLosesIff(cfg, states[m], inputs[m]);
      }
    }
  }

  lemma LosslessTick(cfg: Config, s: State)
    requires Inv(cfg, s) && Lossless(cfg)
    ensures !LosesCommand(cfg, s)
  {
    TickLosesIff(cfg, s);
    ClockTickKeeps(cfg, s);
  }

  /** Single issue, or positive gaps between column commands, keep every run out of that branch. */
  lemma LosslessLosesNothing(cfg: Config, states: seq<State>, inputs: seq<Input>, n: nat)
    requires Behaviour(cfg, states, inputs) && n < |states| && Lossless(cfg)
    ensures LosesNothing(cfg, states, inputs, n)
  {
    forall m | 0 <= m < n
      ensures LosesNothingAt(cfg, states[m], inputs[m])
    {
      BehaviourKeepsInv(cfg, states, inputs, m);
      LosslessTick(cfg, states[m]);
    }
  }
}
