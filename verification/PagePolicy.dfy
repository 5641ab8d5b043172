/** The row-buffer policy of a run: with closed pages every read and write precharges its bank, and
    with open pages none does. */
module PagePolicy {
  import opened Basics
  import opened DramTypes
  import opened Channel
  import opened CommandQueues
  import opened History
  import opened Controller
  import opened OrderingSchedule
  import opened Runs

  predicate ClosesRow(kind: CommandType) {
    kind.ReadPrecharge? || kind.WritePrecharge?
  }

  predicate Follows(cfg: Config, kind: CommandType) {
    kind.IsReadWrite() ==> (ClosesRow(kind) <==> cfg.closePage)
  }

  predicate QueueFollows(cfg: Config, q: seq<Command>) {
    forall i :: 0 <= i < |q| ==> Follows(cfg, q[i].kind)
  }

  predicate QueuesFollow(cfg: Config, queues: seq<seq<Command>>) {
    forall k :: 0 <= k < |queues| ==> QueueFollows(cfg, queues[k])
  }

  predicate HistoryFollows(cfg: Config, h: seq<Issued>) {
    forall i :: 0 <= i < |h| ==> Follows(cfg, h[i].cmd.kind)
  }

  predicate PolicyInv(cfg: Config, s: State) {
    QueuesFollow(cfg, s.cq.queues) && HistoryFollows(cfg, s.shadow.history)
  }

  /** A choice that keeps the policy: what is left in the queues follows it, and so does the chosen
      command. */
  predicate ChoiceFollows(cfg: Config, s: State, c: Chosen) {
    && QueuesFollow(cfg, c.s.cq.queues)
    && c.s.shadow == s.shadow && c.s.clk == s.clk
    && (c.cmd.Some? ==> Follows(cfg, c.cmd.value.kind))
  }

  lemma RemoveFollows(cfg: Config, queues: seq<seq<Command>>, k: nat, i: nat)
    requires QueuesFollow(cfg, queues) && k < |queues| && i < |queues[k]|
    ensures QueuesFollow(cfg, queues[k := RemoveAt(queues[k], i)])
  {
    assert QueueFollows(cfg, queues[k]);
    assert QueueFollows(cfg, RemoveAt(queues[k], i));
  }

  lemma TakeFollows(cfg: Config, s: State)
    requires Shaped(cfg, s) && QueuesFollow(cfg, s.cq.queues) && TakePhase(cfg, s).Ok?
    ensures ChoiceFollows(cfg, s, TakePhase(cfg, s).value)
  {
    TakeIsLegal(cfg, s.ch, s.cq, NumQueues(cfg));
    var t := Take(cfg, s.ch, s.cq, NumQueues(cfg)).value;
    if t.pick.Some? && t.pick.value.cmd.kind.IsReadWrite() {
      var k := t.pick.value.queue;
      var i: nat :| i < |s.cq.queues[k]| && s.cq.queues[k][i] == t.pick.value.cmd
                    && t.qs.queues == s.cq.queues[k := RemoveAt(s.cq.queues[k], i)];
      assert QueueFollows(cfg, s.cq.queues[k]);
      RemoveFollows(cfg, s.cq.queues, k, i);
    }
  }

  lemma FinishFollows(cfg: Config, s: State)
    requires Core(cfg, s) && QueuesFollow(cfg, s.cq.queues)
    ensures FinishPhase(cfg, s).Ok? && ChoiceFollows(cfg, s, FinishPhase(cfg, s).value)
  {
    FinishPhaseKeeps(cfg, s);
  }

  lemma ChooseFollows(cfg: Config, s: State)
    requires MidInv(cfg, s, s.clk, s.rf) && QueuesFollow(cfg, s.cq.queues)
    ensures ChoosePhase(cfg, s).Ok? && ChoiceFollows(cfg, s, ChoosePhase(cfg, s).value)
  {
    ChooseKeeps(cfg, s);
    FinishFollows(cfg, s);
    var finished := FinishPhase(cfg, s).value;
    if finished.cmd.None? {
      TakeFollows(cfg, finished.s);
    }
  }

  lemma IssueFollows(cfg: Config, s: State, cmd: Command)
    requires ValidChannel(cfg, s.ch) && Addressed(cfg, cmd) && IssueCommand(cfg, s, cmd).Ok?
    requires PolicyInv(cfg, s) && Follows(cfg, cmd.kind)
    ensures PolicyInv(cfg, IssueCommand(cfg, s, cmd).value)
  {
    AccountFrame(cfg, s, cmd);
  }

  lemma SecondFollows(cfg: Config, s: State, first: Command)
    requires Shaped(cfg, s) && PolicyInv(cfg, s) && SecondPhase(cfg, s, first).Ok?
    ensures PolicyInv(cfg, SecondPhase(cfg, s, first).value)
  {
    TakeFollows(cfg, s);
    var second := TakePhase(cfg, s).value;
    if second.cmd.Some? && second.cmd.value.kind.IsReadWrite() != first.kind.IsReadWrite() {
      IssueFollows(cfg, second.s, second.cmd.value);
    }
  }

  lemma IssuePhaseFollows(cfg: Config, c: Chosen)
    requires ChosenOk(cfg, c) && PolicyInv(cfg, c.s) && (c.cmd.Some? ==> Follows(cfg, c.cmd.value.kind))
    requires IssuePhase(cfg, c).Ok?
    ensures PolicyInv(cfg, IssuePhase(cfg, c).value)
  {
    if c.cmd.Some? {
      IssueIsShaped(cfg, c.s, c.cmd.value);
      IssueFollows(cfg, c.s, c.cmd.value);
      if cfg.dualCommand {
        SecondFollows(cfg, IssueCommand(cfg, c.s, c.cmd.value).value, c.cmd.value);
      }
    }
  }

  lemma ScheduleFollows(cfg: Config, s: State)
    requires cfg.WellFormed() && |s.cq.queues| == NumQueues(cfg) && PolicyInv(cfg, s)
    ensures PolicyInv(cfg, ScheduleTransaction(cfg, s))
  {
    ScheduleKeepsPending(cfg, s);
    var queue := SourceQueue(cfg, s);
    var i := FirstAccepted(cfg, s.cq, queue, 0);
    if i.Some? {
      TransCommandPlaced(cfg, queue[i.value]);
      AddFollows(cfg, s.cq, TransToCommand(cfg, queue[i.value]));
    }
  }

  lemma AddFollows(cfg: Config, qs: Queues, cmd: Command)
    requires |qs.queues| == NumQueues(cfg) && 0 <= QueueIndex(cfg, cmd.Bank()) < NumQueues(cfg)
    requires QueuesFollow(cfg, qs.queues) && Follows(cfg, cmd.kind)
    ensures QueuesFollow(cfg, Add(cfg, qs, cmd).queues)
  {
    assert QueueFollows(cfg, qs.queues[QueueIndex(cfg, cmd.Bank())] + [cmd]);
  }

  lemma TickFollows(cfg: Config, s: State)
    requires Inv(cfg, s) && PolicyInv(cfg, s)
    ensures ClockTick(cfg, s).Ok? && PolicyInv(cfg, ClockTick(cfg, s).value)
  {
    ClockTickKeeps(cfg, s);
    BeginKeeps(cfg, s);
    var begun := RefreshPhase(cfg, s);
    ChooseFollows(cfg, begun);
    var c := ChoosePhase(cfg, begun).value;
    IssuePhaseFollows(cfg, c);
    ScheduleFollows(cfg, IssuePhase(cfg, c).value);
  }

  /** Accepting a request and handing one back touch neither command queues nor history. */
  lemma OutsideTheTick(cfg: Config, s: State, req: Request, clk: nat)
    requires PolicyInv(cfg, s)
    ensures PolicyInv(cfg, AddTransaction(cfg, s, req)) && PolicyInv(cfg, ReturnDone(s, clk))
  {
  }

  lemma StepFollows(cfg: Config, s: State, input: Input)
    requires Inv(cfg, s) && PolicyInv(cfg, s) && Shaped(cfg, s) && Step(cfg, s, input).Ok?
    ensures PolicyInv(cfg, Step(cfg, s, input).value)
  {
    match input {
      case Submit(req) => OutsideTheTick(cfg, s, req, 0);
      case Cycle => TickFollows(cfg, s);
      case HandBack(clk) => OutsideTheTick(cfg, s, Request(0, false, 0), clk);
    }
  }

  lemma {:induction false} BehaviourFollows(cfg: Config, states: seq<State>, inputs: seq<Input>, n: nat)
    requires Behaviour(cfg, states, inputs) && n < |states|
    ensures PolicyInv(cfg, states[n])
    decreases n
  {
    if n == 0 {
      PolicyStarts(cfg, states, inputs);
    } else {
      BehaviourFollows(cfg, states, inputs, n - 1);
      PolicyLeadsOn(cfg, states, inputs, n);
    }
  }

  lemma PolicyStarts(cfg: Config, states: seq<State>, inputs: seq<Input>)
    requires Behaviour(cfg, states, inputs)
    ensures PolicyInv(cfg, states[0])
  {
  }

  lemma PolicyLeadsOn(cfg: Config, states: seq<State>, inputs: seq<Input>, n: nat)
    requires Behaviour(cfg, states, inputs) && 0 < n < |states| && PolicyInv(cfg, states[n - 1])
    ensures PolicyInv(cfg, states[n])
  {
    BehaviourKeepsInv(cfg, states, inputs, n - 1);
    InvLeadsToPolicy(cfg, states, inputs, n);
  }

  lemma InvLeadsToPolicy(cfg: Config, states: seq<State>, inputs: seq<Input>, n: nat)
    requires Behaviour(cfg, states, inputs) && 0 < n < |states|
    requires Inv(cfg, states[n - 1]) && PolicyInv(cfg, states[n - 1])
    ensures PolicyInv(cfg, states[n])
  {
    assert LeadsAt(cfg, states, inputs, n - 1);
    StepFollows(cfg, states[n - 1], inputs[n - 1]);
  }

  /** Every read and write of a run precharges its bank with closed pages, and none does with open
      pages. */
  lemma PagesAsConfigured(cfg: Config, states: seq<State>, inputs: seq<Input>, n: nat, i: nat)
    requires Behaviour(cfg, states, inputs) && n < |states| && i < |states[n].shadow.history|
    requires states[n].shadow.history[i].cmd.kind.IsReadWrite()
    ensures ClosesRow(states[n].shadow.history[i].cmd.kind) <==> cfg.closePage
  {
    BehaviourFollows(cfg, states, inputs, n);
  }
}
