/** Refreshes are issued in the order in which they were inserted, and none is lost. */
module RefreshOrder {
  import opened Basics
  import opened DramTypes
  import opened Channel
  import opened RefreshUnit
  import opened History
  import opened Controller
  import opened OrderingSchedule
  import opened Runs
  import opened RefreshPeriod

  /** The refreshes among the issued commands. */
  function Refreshes(h: seq<Issued>): seq<Command> {
    if h == [] then []
    else
      var c := h[|h| - 1].cmd;
      Refreshes(h[..|h| - 1]) + if c.kind.IsRefresh() then [c] else []
  }

  /** What was issued and what still waits is what was inserted in `t` ticks. */
  ghost predicate InOrder(cfg: Config, s: State, t: nat)
    requires Configured(cfg)
  {
    Refreshes(s.shadow.history) + s.ch.refreshQ == InsertedBy(cfg, t)
  }

  lemma RefreshesGrow(h: seq<Issued>, c: Issued)
    ensures Refreshes(h + [c]) == Refreshes(h) + if c.cmd.kind.IsRefresh() then [c.cmd] else []
  {
    assert (h + [c])[..|h|] == h;
  }

  /** A refresh that may be issued now is the one at the front. */
  predicate FrontOnly(s: State, cmd: Command) {
    cmd.kind.IsRefresh() ==> s.ch.refreshQ != [] && cmd == s.ch.refreshQ[0]
  }

  lemma IssueDropsFront(cfg: Config, s: State, cmd: Command)
    requires ValidChannel(cfg, s.ch) && Addressed(cfg, cmd) && IssueCommand(cfg, s, cmd).Ok? && FrontOnly(s, cmd)
    ensures IssueCommand(cfg, s, cmd).value.ch.refreshQ == if cmd.kind.IsRefresh() then s.ch.refreshQ[1..] else s.ch.refreshQ
  {
    if !cmd.kind.IsRefresh() {
      OtherKeepsRefreshQueue(cfg, s, cmd);
    }
  }

  lemma IssueInOrder(cfg: Config, s: State, cmd: Command, t: nat)
    requires Configured(cfg) && ValidChannel(cfg, s.ch) && Addressed(cfg, cmd) && IssueCommand(cfg, s, cmd).Ok?
    requires InOrder(cfg, s, t) && FrontOnly(s, cmd)
    ensures InOrder(cfg, IssueCommand(cfg, s, cmd).value, t)
  {
    AccountFrame(cfg, s, cmd);
    IssueDropsFront(cfg, s, cmd);
    RefreshesGrow(s.shadow.history, Issued(cmd, s.clk));
    if cmd.kind.IsRefresh() {
      Assoc(Refreshes(s.shadow.history), [cmd], s.ch.refreshQ[1..]);
      assert s.ch.refreshQ == [cmd] + s.ch.refreshQ[1..];
    }
  }

  // ---------------------------------------------------------------- phases

  lemma FinishYieldsFront(cfg: Config, s: State)
    requires Core(cfg, s)
    ensures FinishPhase(cfg, s).Ok?
    ensures var c := FinishPhase(cfg, s).value;
            && c.s.ch == s.ch && c.s.shadow == s.shadow && (c.cmd.Some? ==> FrontOnly(s, c.cmd.value))
  {
    FinishPhaseKeeps(cfg, s);
    if s.ch.refreshQ != [] && FinishPhase(cfg, s).value.cmd.Some? {
      FinishKind(cfg, s);
    }
  }

  lemma ChooseYieldsFront(cfg: Config, s: State)
    requires MidInv(cfg, s, s.clk, s.rf)
    ensures ChoosePhase(cfg, s).Ok?
    ensures var c := ChoosePhase(cfg, s).value;
            && c.s.ch == s.ch && c.s.shadow == s.shadow && (c.cmd.Some? ==> FrontOnly(s, c.cmd.value))
  {
    FinishYieldsFront(cfg, s);
    FinishPhaseKeeps(cfg, s);
    var finished := FinishPhase(cfg, s).value;
    if finished.cmd.None? {
      TakePhaseKeeps(cfg, finished.s);
    }
  }

  lemma SecondInOrder(cfg: Config, s: State, first: Command, t: nat)
    requires Core(cfg, s) && SecondPhase(cfg, s, first).Ok? && InOrder(cfg, s, t)
    ensures InOrder(cfg, SecondPhase(cfg, s, first).value, t)
  {
    TakePhaseKeeps(cfg, s);
    var second := TakePhase(cfg, s).value;
    if second.cmd.Some? && second.cmd.value.kind.IsReadWrite() != first.kind.IsReadWrite() {
      IssueInOrder(cfg, second.s, second.cmd.value, t);
    }
  }

  lemma IssuePhaseInOrder(cfg: Config, c: Chosen, t: nat)
    requires ChosenInv(cfg, c) && ChosenOk(cfg, c) && IssuePhase(cfg, c).Ok?
    requires InOrder(cfg, c.s, t) && (c.cmd.Some? ==> FrontOnly(c.s, c.cmd.value))
    ensures InOrder(cfg, IssuePhase(cfg, c).value, t)
  {
    if c.cmd.Some? {
      IssueIsShaped(cfg, c.s, c.cmd.value);
      IssueInOrder(cfg, c.s, c.cmd.value, t);
      if cfg.dualCommand {
        IssueChosenMid(cfg, c);
        SecondInOrder(cfg, IssueCommand(cfg, c.s, c.cmd.value).value, c.cmd.value, t);
      }
    }
  }

  lemma BeginInOrder(cfg: Config, s: State, t: nat)
    requires Shaped(cfg, s) && InOrder(cfg, s, t) && s.rf == CountersAfter(cfg, t)
    ensures InOrder(cfg, RefreshPhase(cfg, s), t + 1)
  {
    Assoc(Refreshes(s.shadow.history), s.ch.refreshQ, Inserted(cfg, s.rf));
  }

  lemma TickInOrder(cfg: Config, s: State, t: nat)
    requires Inv(cfg, s) && InOrder(cfg, s, t) && s.rf == CountersAfter(cfg, t)
    ensures ClockTick(cfg, s).Ok? && InOrder(cfg, ClockTick(cfg, s).value, t + 1)
  {
    ClockTickKeeps(cfg, s);
    BeginKeeps(cfg, s);
    BeginInOrder(cfg, s, t);
    var begun := RefreshPhase(cfg, s);
    ChooseKeeps(cfg, begun);
    ChooseYieldsFront(cfg, begun);
    var c := ChoosePhase(cfg, begun).value;
    IssuePhaseInOrder(cfg, c, t + 1);
    ScheduleKeepsPending(cfg, IssuePhase(cfg, c).value);
  }

  lemma OthersInOrder(cfg: Config, s: State, req: Request, clk: nat, t: nat)
    requires Configured(cfg) && InOrder(cfg, s, t)
    ensures InOrder(cfg, AddTransaction(cfg, s, req), t) && InOrder(cfg, ReturnDone(s, clk), t)
    ensures AddTransaction(cfg, s, req).clk == s.clk && ReturnDone(s, clk).clk == s.clk
  {
  }

  lemma StepInOrder(cfg: Config, s: State, input: Input, s': State)
    requires Inv(cfg, s) && Leads(cfg, s, input, s') && InOrder(cfg, s, s.clk) && s.rf == CountersAfter(cfg, s.clk)
    ensures InOrder(cfg, s', s'.clk)
  {
    match input {
      case Submit(req) => OthersInOrder(cfg, s, req, 0, s.clk);
      case Cycle => TickAdvances(cfg, s);
      case HandBack(clk) => OthersInOrder(cfg, s, Request(0, false, 0), clk, s.clk);
    }
  }

  lemma TickAdvances(cfg: Config, s: State)
    requires Inv(cfg, s) && InOrder(cfg, s, s.clk) && s.rf == CountersAfter(cfg, s.clk)
    ensures ClockTick(cfg, s).Ok? && InOrder(cfg, ClockTick(cfg, s).value, ClockTick(cfg, s).value.clk)
  {
    TickMovesCounters(cfg, s);
    TickInOrder(cfg, s, s.clk);
  }

  // ---------------------------------------------------------------- all runs

  /** In every run the refreshes issued so far and then those in the refresh queue are exactly the
      refreshes inserted up to now, in the order of their insertion. */
  lemma {:induction false} RefreshesInOrder(cfg: Config, states: seq<State>, inputs: seq<Input>, n: nat)
    requires Behaviour(cfg, states, inputs) && n < |states|
    ensures Refreshes(states[n].shadow.history) + states[n].ch.refreshQ == InsertedBy(cfg, states[n].clk)
    decreases n
  {
    if n == 0 {
      NoneInsertedYet(cfg, states, inputs);
    } else {
      RefreshesInOrder(cfg, states, inputs, n - 1);
      OrderLeadsOn(cfg, states, inputs, n);
    }
  }

  lemma NoneInsertedYet(cfg: Config, states: seq<State>, inputs: seq<Input>)
    requires Behaviour(cfg, states, inputs)
    ensures InOrder(cfg, states[0], states[0].clk)
  {
  }

  lemma OrderLeadsOn(cfg: Config, states: seq<State>, inputs: seq<Input>, n: nat)
    requires Behaviour(cfg, states, inputs) && 0 < n < |states| && InOrder(cfg, states[n - 1], states[n - 1].clk)
    ensures InOrder(cfg, states[n], states[n].clk)
  {
    BehaviourKeepsInv(cfg, states, inputs, n - 1);
    CountersFollowClock(cfg, states, inputs, n - 1);
    InvLeadsOrder(cfg, states, inputs, n);
  }

  lemma InvLeadsOrder(cfg: Config, states: seq<State>, inputs: seq<Input>, n: nat)
    requires Behaviour(cfg, states, inputs) && 0 < n < |states| && InOrder(cfg, states[n - 1], states[n - 1].clk)
    requires Inv(cfg, states[n - 1]) && states[n - 1].rf == CountersAfter(cfg, states[n - 1].clk)
    ensures InOrder(cfg, states[n], states[n].clk)
  {
    assert LeadsAt(cfg, states, inputs, n - 1);
    StepInOrder(cfg, states[n - 1], inputs[n - 1], states[n]);
  }
}
