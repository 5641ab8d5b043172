/** The memory system behind the bridge: one controller a channel (JedecDRAMSystem in
    dram_system.cc). The bridge's theorems assume that each accepted transaction is reported at
    most once; the controllers see to it. */
module MemorySystem {
  import opened Basics
  import opened DramTypes
  import opened RefreshUnit
  import opened Controller
  import opened OrderingSchedule
  import opened DualIssue
  import opened Ordering
  import opened Runs
  import opened LostCommands
  import opened ControllerTheorems
  import Bridge

  datatype System = System(bridge: Bridge.State, ctrls: seq<State>)

  function Initial(cfg: Config, channels: nat): System {
    System(Bridge.InitialState(channels), seq(channels, _ => InitialState(cfg)))
  }

  /** What the bridge and the controllers do: the bridge on its own, the acceptance of a channel's
      front payload, the return of a finished transaction by a controller at its clock, and the tick
      of a controller. */
  datatype Event =
    | Alone(event: Bridge.Event)
    | Accept(channel: nat, value: int)
    | Return(channel: nat, clk: nat)
    | Tick(channel: nat)

  function KeyOf(t: Transaction): Bridge.Key {
    Bridge.Key(t.addr, t.isWrite)
  }

  function Front(s: System, channel: nat): Bridge.Payload
    requires channel < |s.bridge.incoming| && s.bridge.incoming[channel] != []
  {
    s.bridge.incoming[channel][0]
  }

  function RequestOf(p: Bridge.Payload, value: int): Request {
    Request(p.address, p.command.WRITE?, value)
  }

  predicate Enabled(cfg: Config, s: System, e: Event) {
    && |s.ctrls| == |s.bridge.incoming|
    && match e
       case Alone(event) => !event.Reporting? && !event.Accepting? && Bridge.Enabled(s.bridge, event)
       case Accept(channel, _) =>
         && channel < |s.ctrls| && s.bridge.incoming[channel] != []
         && WillAcceptTransaction(cfg, s.ctrls[channel], Front(s, channel).command.WRITE?)
       case Return(channel, clk) => channel < |s.ctrls| && FirstDone(s.ctrls[channel].returnQ, clk, 0).Some?
       case Tick(channel) => channel < |s.ctrls|
  }

  /** The event as the bridge sees it; a controller's tick passes it by. */
  function Seen(cfg: Config, s: System, e: Event): Bridge.Event
    requires Enabled(cfg, s, e)
  {
    match e
    case Alone(event) => event
    case Accept(channel, _) => Bridge.Accepting(channel)
    case Return(channel, clk) =>
      var q := s.ctrls[channel].returnQ;
      Bridge.Reporting(KeyOf(q[FirstDone(q, clk, 0).value]))
    case Tick(_) => Bridge.Advancing(0)
  }

  /** What the event does to the bridge. A returned transaction runs the bridge's callback, whether
      or not the bridge knows of it. */
  function Told(cfg: Config, s: System, e: Event): Bridge.State
    requires Enabled(cfg, s, e)
  {
    match e
    case Alone(event) => Bridge.Step(s.bridge, event)
    case Accept(channel, _) => Bridge.Accept(s.bridge, channel)
    case Return(channel, clk) =>
      var q := s.ctrls[channel].returnQ;
      Bridge.Callback(s.bridge, KeyOf(q[FirstDone(q, clk, 0).value]))
    case Tick(_) => s.bridge
  }

  /** What the event does to the controllers. */
  ghost predicate Moves(cfg: Config, s: System, e: Event, ctrls: seq<State>)
    requires Enabled(cfg, s, e)
  {
    match e
    case Alone(_) => ctrls == s.ctrls
    case Accept(channel, value) =>
      ctrls == s.ctrls[channel := AddTransaction(cfg, s.ctrls[channel], RequestOf(Front(s, channel), value))]
    case Return(channel, clk) => ctrls == s.ctrls[channel := ReturnDone(s.ctrls[channel], clk)]
    case Tick(channel) =>
      && Shaped(cfg, s.ctrls[channel])
      && ClockTick(cfg, s.ctrls[channel]).Ok?
      && ctrls == s.ctrls[channel := ClockTick(cfg, s.ctrls[channel]).value]
  }

  // ---------------------------------------------------------------- what is outstanding

  function KeyCount(q: seq<Transaction>, key: Bridge.Key): nat {
    if q == [] then 0 else (if KeyOf(q[0]) == key then 1 else 0) + KeyCount(q[1..], key)
  }

  /** The transactions of a key that a controller has accepted and not reported. */
  function Outstanding(s: State, key: Bridge.Key): nat {
    KeyCount(s.returnQ, key) + KeyCount(s.pendRd, key)
  }

  function OutstandingIn(ctrls: seq<State>, key: Bridge.Key): nat {
    if ctrls == [] then 0 else Outstanding(ctrls[0], key) + OutstandingIn(ctrls[1..], key)
  }

  lemma {:induction false} KeyCountConcat(p: seq<Transaction>, q: seq<Transaction>, key: Bridge.Key)
    ensures KeyCount(p + q, key) == KeyCount(p, key) + KeyCount(q, key)
  {
    if p == [] {
      assert p + q == q;
    } else {
      assert (p + q)[1..] == p[1..] + q;
      KeyCountConcat(p[1..], q, key);
    }
  }

  lemma KeyCountLast(q: seq<Transaction>, t: Transaction, key: Bridge.Key)
    ensures KeyCount(q + [t], key) == KeyCount(q, key) + if KeyOf(t) == key then 1 else 0
  {
    KeyCountConcat(q, [t], key);
    assert [t][1..] == [];
  }

  lemma KeyCountRemove(q: seq<Transaction>, i: nat, key: Bridge.Key)
    requires i < |q|
    ensures KeyCount(q, key) == KeyCount(RemoveAt(q, i), key) + if KeyOf(q[i]) == key then 1 else 0
  {
    assert q == q[..i] + [q[i]] + q[i + 1..];
    KeyCountConcat(q[..i] + [q[i]], q[i + 1..], key);
    KeyCountLast(q[..i], q[i], key);
    KeyCountConcat(q[..i], q[i + 1..], key);
  }

  lemma {:induction false} KeyCountSplit(q: seq<Transaction>, a: nat, key: Bridge.Key)
    ensures KeyCount(WithAddr(q, a), key) + KeyCount(WithoutAddr(q, a), key) == KeyCount(q, key)
  {
    if q != [] {
      KeyCountSplit(q[1..], a, key);
      assert ([q[0]] + WithAddr(q[1..], a))[1..] == WithAddr(q[1..], a);
      assert ([q[0]] + WithoutAddr(q[1..], a))[1..] == WithoutAddr(q[1..], a);
    }
  }

  lemma {:induction false} KeyCountComplete(q: seq<Transaction>, cycle: nat, key: Bridge.Key)
    ensures KeyCount(CompleteAt(q, cycle), key) == KeyCount(q, key)
  {
    if q != [] {
      assert CompleteAt(q, cycle)[1..] == CompleteAt(q[1..], cycle);
      KeyCountComplete(q[1..], cycle, key);
    }
  }

  /** Accepting a request makes its key outstanding once more. */
  lemma AcceptingAddsOne(cfg: Config, s: State, req: Request, key: Bridge.Key)
    ensures Outstanding(AddTransaction(cfg, s, req), key)
         == Outstanding(s, key) + if Bridge.Key(req.addr, req.isWrite) == key then 1 else 0
  {
    var t := Transaction(req.addr, req.isWrite, s.clk, 0, |s.shadow.log|);
    KeyCountLast(s.returnQ, t.(complete := s.clk + 1), key);
    KeyCountLast(s.pendRd, t, key);
  }

  /** Returning a transaction takes its key off once. */
  lemma ReturningRemovesOne(s: State, clk: nat, key: Bridge.Key)
    requires FirstDone(s.returnQ, clk, 0).Some?
    ensures var t := s.returnQ[FirstDone(s.returnQ, clk, 0).value];
            Outstanding(s, key) == Outstanding(ReturnDone(s, clk), key) + if KeyOf(t) == key then 1 else 0
  {
    KeyCountRemove(s.returnQ, FirstDone(s.returnQ, clk, 0).value, key);
  }

  lemma AccountKeepsOutstanding(cfg: Config, s: State, cmd: Command, key: Bridge.Key)
    ensures Outstanding(Account(cfg, s, cmd), key) == Outstanding(s, key)
  {
    AccountQueues(cfg, s, cmd);
    if cmd.kind.IsRead() {
      var served := WithAddr(s.pendRd, cmd.hexAddr);
      KeyCountSplit(s.pendRd, cmd.hexAddr, key);
      KeyCountComplete(served, Deadline(s.clk, cfg.ReadDelay()), key);
      KeyCountConcat(s.returnQ, CompleteAt(served, Deadline(s.clk, cfg.ReadDelay())), key);
    }
  }

  lemma IssueKeepsOutstanding(cfg: Config, c: Chosen, key: Bridge.Key)
    requires ChosenOk(cfg, c) && c.cmd.Some? && IssueCommand(cfg, c.s, c.cmd.value).Ok?
    ensures Outstanding(IssueCommand(cfg, c.s, c.cmd.value).value, key) == Outstanding(c.s, key)
  {
    AccountKeepsOutstanding(cfg, c.s, c.cmd.value, key);
  }

  lemma SecondKeepsOutstanding(cfg: Config, s: State, first: Command, key: Bridge.Key)
    requires Shaped(cfg, s) && SecondPhase(cfg, s, first).Ok?
    ensures Outstanding(SecondPhase(cfg, s, first).value, key) == Outstanding(s, key)
  {
    var second := TakePhase(cfg, s).value;
    if second.cmd.Some? && second.cmd.value.kind.IsReadWrite() != first.kind.IsReadWrite() {
      IssueKeepsOutstanding(cfg, second, key);
    }
  }

  lemma IssuePhaseKeepsOutstanding(cfg: Config, c: Chosen, key: Bridge.Key)
    requires ChosenOk(cfg, c) && IssuePhase(cfg, c).Ok?
    ensures Outstanding(IssuePhase(cfg, c).value, key) == Outstanding(c.s, key)
  {
    if c.cmd.Some? {
      IssueIsShaped(cfg, c.s, c.cmd.value);
      IssueKeepsOutstanding(cfg, c, key);
      if cfg.dualCommand {
        SecondKeepsOutstanding(cfg, IssueCommand(cfg, c.s, c.cmd.value).value, c.cmd.value, key);
      }
    }
  }

  /** A tick reports nothing and forgets nothing. */
  lemma TickKeepsOutstanding(cfg: Config, s: State, key: Bridge.Key)
    requires Shaped(cfg, s) && ClockTick(cfg, s).Ok?
    ensures Outstanding(ClockTick(cfg, s).value, key) == Outstanding(s, key)
  {
    var begun := RefreshPhase(cfg, s);
    var chosen := ChoosePhase(cfg, begun).value;
    ChooseKeepsQueues(cfg, begun);
    IssuePhaseKeepsOutstanding(cfg, chosen, key);
    ScheduleKeepsPending(cfg, IssuePhase(cfg, chosen).value);
  }

  lemma ChooseKeepsQueues(cfg: Config, s: State)
    requires Shaped(cfg, s) && ChoosePhase(cfg, s).Ok?
    ensures var c := ChoosePhase(cfg, s).value; c.s.returnQ == s.returnQ && c.s.pendRd == s.pendRd
  {
  }

  // ---------------------------------------------------------------- the invariant

  /** Below the bridge is exactly what the controllers have outstanding. */
  ghost predicate Inv(cfg: Config, s: System) {
    && |s.ctrls| == |s.bridge.incoming|
    && AllOk(cfg, s.ctrls)
    && (forall key :: Accounts(s, key))
  }

  ghost predicate Follows(cfg: Config, s: System, e: Event, s': System) {
    && Enabled(cfg, s, e)
    && Moves(cfg, s, e, s'.ctrls)
    && s'.bridge == Told(cfg, s, e)
  }

  lemma {:induction false} OutstandingUpdate(ctrls: seq<State>, c: nat, s: State, key: Bridge.Key)
    requires c < |ctrls|
    ensures OutstandingIn(ctrls[c := s], key) + Outstanding(ctrls[c], key) == OutstandingIn(ctrls, key) + Outstanding(s, key)
    decreases c
  {
    if c == 0 {
      assert ctrls[0 := s][1..] == ctrls[1..];
    } else {
      assert ctrls[c := s][1..] == ctrls[1..][c - 1 := s];
      OutstandingUpdate(ctrls[1..], c - 1, s, key);
    }
  }

  lemma {:induction false} OneOfMany(ctrls: seq<State>, c: nat, key: Bridge.Key)
    requires c < |ctrls|
    ensures Outstanding(ctrls[c], key) <= OutstandingIn(ctrls, key)
    decreases c
  {
    if c > 0 {
      OneOfMany(ctrls[1..], c - 1, key);
    }
  }

  /** The bridge can always see the event: what a controller returns is below. */
  lemma ReturnedIsBelow(cfg: Config, s: System, channel: nat, clk: nat)
    requires Inv(cfg, s) && Enabled(cfg, s, Return(channel, clk))
    ensures Bridge.Enabled(s.bridge, Seen(cfg, s, Return(channel, clk)))
  {
    var ctrl := s.ctrls[channel];
    var key := KeyOf(ctrl.returnQ[FirstDone(ctrl.returnQ, clk, 0).value]);
    ReturningRemovesOne(ctrl, clk, key);
    OneOfMany(s.ctrls, channel, key);
    assert Accounts(s, key);
  }

  ghost predicate AllOk(cfg: Config, ctrls: seq<State>) {
    forall c :: 0 <= c < |ctrls| ==> Runs.Inv(cfg, ctrls[c])
  }

  lemma ReplaceKeepsOk(cfg: Config, ctrls: seq<State>, c: nat, moved: State)
    requires AllOk(cfg, ctrls) && c < |ctrls| && Runs.Inv(cfg, moved)
    ensures AllOk(cfg, ctrls[c := moved])
  {
  }

  lemma AcceptKeepsControllers(cfg: Config, s: System, channel: nat, value: int)
    requires AllOk(cfg, s.ctrls) && Enabled(cfg, s, Accept(channel, value))
    ensures AllOk(cfg, s.ctrls[channel := AddTransaction(cfg, s.ctrls[channel], RequestOf(Front(s, channel), value))])
  {
    SubmitKeeps(cfg, s.ctrls[channel], RequestOf(Front(s, channel), value));
    ReplaceKeepsOk(cfg, s.ctrls, channel, AddTransaction(cfg, s.ctrls[channel], RequestOf(Front(s, channel), value)));
  }

  lemma ReturnKeepsControllers(cfg: Config, ctrls: seq<State>, channel: nat, clk: nat)
    requires AllOk(cfg, ctrls) && channel < |ctrls|
    ensures AllOk(cfg, ctrls[channel := ReturnDone(ctrls[channel], clk)])
  {
    HandBackKeeps(cfg, ctrls[channel], clk);
    ReplaceKeepsOk(cfg, ctrls, channel, ReturnDone(ctrls[channel], clk));
  }

  lemma TickKeepsControllers(cfg: Config, ctrls: seq<State>, channel: nat)
    requires AllOk(cfg, ctrls) && channel < |ctrls|
    ensures Shaped(cfg, ctrls[channel]) && ClockTick(cfg, ctrls[channel]).Ok?
    ensures AllOk(cfg, ctrls[channel := ClockTick(cfg, ctrls[channel]).value])
  {
    ClockTickKeeps(cfg, ctrls[channel]);
    ReplaceKeepsOk(cfg, ctrls, channel, ClockTick(cfg, ctrls[channel]).value);
  }

  lemma MovesKeepControllers(cfg: Config, s: System, e: Event, ctrls: seq<State>)
    requires AllOk(cfg, s.ctrls) && Enabled(cfg, s, e) && Moves(cfg, s, e, ctrls)
    ensures |ctrls| == |s.ctrls| && AllOk(cfg, ctrls)
  {
    match e {
      case Alone(_) =>
      case Accept(channel, value) => AcceptKeepsControllers(cfg, s, channel, value);
      case Return(channel, clk) => ReturnKeepsControllers(cfg, s.ctrls, channel, clk);
      case Tick(channel) => TickKeepsControllers(cfg, s.ctrls, channel);
    }
  }

  ghost predicate Accounts(s: System, key: Bridge.Key) {
    s.bridge.below[key] == OutstandingIn(s.ctrls, key)
  }

  /** From a state that accounts for everything below, what the bridge is told is a step that the
      bridge's theorems allow. */
  lemma BridgeFollows(cfg: Config, s: System, e: Event, s': System)
    requires Inv(cfg, s) && Follows(cfg, s, e, s')
    ensures Bridge.Follows(s.bridge, Seen(cfg, s, e), s'.bridge)
  {
    if e.Return? {
      ReturnedIsBelow(cfg, s, e.channel, e.clk);
    }
    ToldIsStep(cfg, s, e);
  }

  lemma ToldIsStep(cfg: Config, s: System, e: Event)
    requires Enabled(cfg, s, e) && (e.Return? ==> Bridge.Enabled(s.bridge, Seen(cfg, s, e)))
    ensures Bridge.Enabled(s.bridge, Seen(cfg, s, e)) && Told(cfg, s, e) == Bridge.Step(s.bridge, Seen(cfg, s, e))
  {
  }

  lemma AcceptKeepsAccounts(cfg: Config, s: System, channel: nat, value: int, s': System, key: Bridge.Key)
    requires Accounts(s, key) && Follows(cfg, s, Accept(channel, value), s')
    ensures Accounts(s', key)
  {
    var req := RequestOf(Front(s, channel), value);
    AcceptingAddsOne(cfg, s.ctrls[channel], req, key);
    OutstandingUpdate(s.ctrls, channel, AddTransaction(cfg, s.ctrls[channel], req), key);
    assert s'.bridge.below == s.bridge.below + multiset{Bridge.Key(req.addr, req.isWrite)};
  }

  lemma ReturnKeepsAccounts(cfg: Config, s: System, channel: nat, clk: nat, s': System, key: Bridge.Key)
    requires Accounts(s, key) && Follows(cfg, s, Return(channel, clk), s')
    requires Bridge.Enabled(s.bridge, Seen(cfg, s, Return(channel, clk)))
    ensures Accounts(s', key)
  {
    var ctrl := s.ctrls[channel];
    var done := KeyOf(ctrl.returnQ[FirstDone(ctrl.returnQ, clk, 0).value]);
    ReturningRemovesOne(ctrl, clk, key);
    OutstandingUpdate(s.ctrls, channel, ReturnDone(ctrl, clk), key);
    assert done in s.bridge.below && s'.bridge.below == s.bridge.below - multiset{done};
  }

  /** Replacing a controller by one with the same outstanding transactions. */
  lemma SameAccounts(s: System, channel: nat, moved: State, s': System, key: Bridge.Key)
    requires Accounts(s, key) && channel < |s.ctrls| && Outstanding(moved, key) == Outstanding(s.ctrls[channel], key)
    requires s'.ctrls == s.ctrls[channel := moved] && s'.bridge.below == s.bridge.below
    ensures Accounts(s', key)
  {
    OutstandingUpdate(s.ctrls, channel, moved, key);
  }

  lemma TickKeepsAccounts(cfg: Config, s: System, channel: nat, s': System, key: Bridge.Key)
    requires Accounts(s, key) && Follows(cfg, s, Tick(channel), s')
    ensures Accounts(s', key)
  {
    var moved := ClockTick(cfg, s.ctrls[channel]).value;
    TickKeepsOutstanding(cfg, s.ctrls[channel], key);
    SameAccounts(s, channel, moved, s', key);
  }

  /** The bridge and the controllers agree on what an event makes outstanding. */
  lemma MovesKeepAccounts(cfg: Config, s: System, e: Event, s': System, key: Bridge.Key)
    requires Accounts(s, key) && Follows(cfg, s, e, s') && Bridge.Enabled(s.bridge, Seen(cfg, s, e))
    ensures Accounts(s', key)
  {
    match e {
      case Alone(event) => AloneKeepsBelow(s.bridge, event);
      case Accept(channel, value) => AcceptKeepsAccounts(cfg, s, channel, value, s', key);
      case Return(channel, clk) => ReturnKeepsAccounts(cfg, s, channel, clk, s', key);
      case Tick(channel) => TickKeepsAccounts(cfg, s, channel, s', key);
    }
  }

  lemma AloneKeepsBelow(s: Bridge.State, e: Bridge.Event)
    requires Bridge.Enabled(s, e) && !e.Reporting? && !e.Accepting?
    ensures Bridge.Step(s, e).below == s.below
  {
  }

  lemma StepKeepsInv(cfg: Config, s: System, e: Event, s': System)
    requires Inv(cfg, s) && Follows(cfg, s, e, s')
    ensures Inv(cfg, s')
  {
    MovesKeepControllers(cfg, s, e, s'.ctrls);
    BridgeFollows(cfg, s, e, s');
    BridgeKeepsChannels(s.bridge, Seen(cfg, s, e));
    forall key
      ensures Accounts(s', key)
    {
      assert Accounts(s, key);
      MovesKeepAccounts(cfg, s, e, s', key);
    }
  }

  lemma BridgeKeepsChannels(s: Bridge.State, e: Bridge.Event)
    requires Bridge.Enabled(s, e)
    ensures |Bridge.Step(s, e).incoming| == |s.incoming|
  {
  }

  // ---------------------------------------------------------------- all behaviours

  ghost predicate FollowsAt(cfg: Config, states: seq<System>, events: seq<Event>, i: nat)
    requires i < |events| && i + 1 < |states|
  {
    Follows(cfg, states[i], events[i], states[i + 1])
  }

  ghost predicate Behaviour(cfg: Config, channels: nat, states: seq<System>, events: seq<Event>) {
    && Configured(cfg)
    && |states| == |events| + 1
    && states[0] == Initial(cfg, channels)
    && forall i :: 0 <= i < |events| ==> FollowsAt(cfg, states, events, i)
  }

  lemma {:induction false} NothingOutstanding(cfg: Config, channels: nat, key: Bridge.Key)
    ensures OutstandingIn(Initial(cfg, channels).ctrls, key) == 0
  {
    if channels > 0 {
      assert Initial(cfg, channels).ctrls[1..] == Initial(cfg, channels - 1).ctrls;
      NothingOutstanding(cfg, channels - 1, key);
    }
  }

  lemma InitialKeepsInv(cfg: Config, channels: nat)
    requires Configured(cfg)
    ensures Inv(cfg, Initial(cfg, channels))
  {
    InitialInv(cfg);
    forall key
      ensures Accounts(Initial(cfg, channels), key)
    {
      NothingOutstanding(cfg, channels, key);
    }
  }

  lemma {:induction false} BehaviourKeepsInv(cfg: Config, channels: nat, states: seq<System>, events: seq<Event>, n: nat)
    requires Behaviour(cfg, channels, states, events) && n < |states|
    ensures Inv(cfg, states[n])
    decreases n
  {
    if n == 0 {
      InvStarts(cfg, channels, states, events);
    } else {
      BehaviourKeepsInv(cfg, channels, states, events, n - 1);
      InvFollows(cfg, channels, states, events, n);
    }
  }

  lemma InvStarts(cfg: Config, channels: nat, states: seq<System>, events: seq<Event>)
    requires Behaviour(cfg, channels, states, events)
    ensures Inv(cfg, states[0])
  {
    InitialKeepsInv(cfg, channels);
  }

  lemma InvFollows(cfg: Config, channels: nat, states: seq<System>, events: seq<Event>, n: nat)
    requires Behaviour(cfg, channels, states, events) && 0 < n < |states|
    requires Inv(cfg, states[n - 1])
    ensures Inv(cfg, states[n])
  {
    assert FollowsAt(cfg, states, events, n - 1);
    StepKeepsInv(cfg, states[n - 1], events[n - 1], states[n]);
  }

  function Bridges(states: seq<System>): (r: seq<Bridge.State>)
    ensures |r| == |states|
    ensures forall i :: 0 <= i < |states| ==> r[i] == states[i].bridge
  {
    seq(|states|, i requires 0 <= i < |states| => states[i].bridge)
  }

  /** Every behaviour of bridge and controllers together is a behaviour of the bridge. Its steps do
      not ask that a reported transaction is known below the bridge: the controllers see to it. */
  lemma SystemIsBridge(cfg: Config, channels: nat, states: seq<System>, events: seq<Event>)
    returns (seen: seq<Bridge.Event>)
    requires Behaviour(cfg, channels, states, events)
    ensures Bridge.Behaviour(channels, Bridges(states), seen)
    ensures |seen| == |events|
    ensures forall i :: 0 <= i < |events| ==> Enabled(cfg, states[i], events[i]) && seen[i] == Seen(cfg, states[i], events[i])
  {
    forall i | 0 <= i < |events|
      ensures Enabled(cfg, states[i], events[i])
    {
      assert FollowsAt(cfg, states, events, i);
    }
    seen := seq(|events|, i requires 0 <= i < |events| && Enabled(cfg, states[i], events[i]) => Seen(cfg, states[i], events[i]));
    forall i | 0 <= i < |seen|
      ensures Bridge.FollowsAt(Bridges(states), seen, i)
    {
      assert FollowsAt(cfg, states, events, i);
      BehaviourKeepsInv(cfg, channels, states, events, i);
      BridgeFollows(cfg, states[i], events[i], states[i + 1]);
    }
  }

  /** No event of a controller is ever closed to it: a tick succeeds, and whatever a controller has
      finished the bridge can be told. */
  lemma ControllersAreFree(cfg: Config, channels: nat, states: seq<System>, events: seq<Event>, n: nat, channel: nat, clk: nat)
    requires Behaviour(cfg, channels, states, events) && n < |states| && channel < |states[n].ctrls|
    ensures Enabled(cfg, states[n], Tick(channel)) && exists ctrls :: Moves(cfg, states[n], Tick(channel), ctrls)
    ensures Enabled(cfg, states[n], Return(channel, clk)) ==>
              Bridge.Enabled(states[n].bridge, Seen(cfg, states[n], Return(channel, clk)))
  {
    BehaviourKeepsInv(cfg, channels, states, events, n);
    TickIsFree(cfg, states[n], channel);
    if Enabled(cfg, states[n], Return(channel, clk)) {
      ReturnedIsBelow(cfg, states[n], channel, clk);
    }
  }

  lemma TickIsFree(cfg: Config, s: System, channel: nat)
    requires Inv(cfg, s) && channel < |s.ctrls|
    ensures Enabled(cfg, s, Tick(channel)) && exists ctrls :: Moves(cfg, s, Tick(channel), ctrls)
  {
    TickKeepsControllers(cfg, s.ctrls, channel);
    assert Moves(cfg, s, Tick(channel), s.ctrls[channel := ClockTick(cfg, s.ctrls[channel]).value]);
  }

  // ---------------------------------------------------------------- lost commands

  /** The event is no tick that takes its controller's losing branch. */
  ghost predicate LosesNothingAt(cfg: Config, s: System, e: Event) {
    e.Tick? ==> e.channel < |s.ctrls| && LostCommands.LosesNothingAt(cfg, s.ctrls[e.channel], Cycle)
  }

  /** No tick of any controller before the n-th state takes the losing branch. */
  ghost predicate LosesNothing(cfg: Config, states: seq<System>, events: seq<Event>, n: nat)
    requires |states| == |events| + 1 && n < |states|
  {
    forall m :: 0 <= m < n ==> LosesNothingAt(cfg, states[m], events[m])
  }

  /** In every controller each address waits in the queues exactly as it is pending. */
  ghost predicate AllExact(cfg: Config, ctrls: seq<State>) {
    forall c :: 0 <= c < |ctrls| ==> Exact(cfg, ctrls[c])
  }

  lemma ReplaceExactIff(cfg: Config, ctrls: seq<State>, c: nat, moved: State)
    requires AllExact(cfg, ctrls) && c < |ctrls|
    ensures AllExact(cfg, ctrls[c := moved]) <==> Exact(cfg, moved)
  {
    assert ctrls[c := moved][c] == moved;
  }

  /** What an event does to the controller that it concerns is one step of that controller. */
  lemma ConcernsOne(cfg: Config, s: System, e: Event, s': System) returns (channel: nat, input: Input)
    requires Follows(cfg, s, e, s') && !e.Alone?
    ensures channel < |s.ctrls| && (input.Cycle? <==> e.Tick?) && (e.Tick? ==> channel == e.channel)
    ensures Shaped(cfg, s.ctrls[channel]) ==>
              && Step(cfg, s.ctrls[channel], input).Ok?
              && s'.ctrls == s.ctrls[channel := Step(cfg, s.ctrls[channel], input).value]
  {
    channel := e.channel;
    match e {
      case Accept(_, value) => input := Submit(RequestOf(Front(s, channel), value));
      case Return(_, clk) => input := HandBack(clk);
      case Tick(_) => input := Cycle;
    }
  }

  /** From exact controllers a step leads to exact controllers exactly when it loses no command. */
  lemma StepLosesIff(cfg: Config, s: System, e: Event, s': System)
    requires Inv(cfg, s) && Follows(cfg, s, e, s') && AllExact(cfg, s.ctrls)
    ensures AllExact(cfg, s'.ctrls) <==> LosesNothingAt(cfg, s, e)
  {
    if !e.Alone? {
      var channel, input := ConcernsOne(cfg, s, e, s');
      assert Runs.Inv(cfg, s.ctrls[channel]) && Exact(cfg, s.ctrls[channel]);
      LostCommands.StepLosesIff(cfg, s.ctrls[channel], input);
      ReplaceExactIff(cfg, s.ctrls, channel, Step(cfg, s.ctrls[channel], input).value);
    }
  }

  lemma {:induction false} ExactWhileNothingIsLost(cfg: Config, channels: nat, states: seq<System>, events: seq<Event>, n: nat)
    requires Behaviour(cfg, channels, states, events) && n < |states| && LosesNothing(cfg, states, events, n)
    ensures AllExact(cfg, states[n].ctrls)
    decreases n
  {
    if n == 0 {
      ExactStarts(cfg, channels, states, events);
    } else {
      assert LosesNothing(cfg, states, events, n - 1);
      ExactWhileNothingIsLost(cfg, channels, states, events, n - 1);
      assert LosesNothingAt(cfg, states[n - 1], events[n - 1]);
      BehaviourKeepsInv(cfg, channels, states, events, n - 1);
      ExactFollowsIff(cfg, channels, states, events, n);
    }
  }

  lemma ExactStarts(cfg: Config, channels: nat, states: seq<System>, events: seq<Event>)
    requires Behaviour(cfg, channels, states, events)
    ensures AllExact(cfg, states[0].ctrls)
  {
    InitialInv(cfg);
    InitialIsExact(cfg);
  }

  lemma ExactFollowsIff(cfg: Config, channels: nat, states: seq<System>, events: seq<Event>, n: nat)
    requires Behaviour(cfg, channels, states, events) && 0 < n < |states|
    requires Inv(cfg, states[n - 1]) && AllExact(cfg, states[n - 1].ctrls)
    ensures AllExact(cfg, states[n].ctrls) <==> LosesNothingAt(cfg, states[n - 1], events[n - 1])
  {
    assert FollowsAt(cfg, states, events, n - 1);
    StepLosesIff(cfg, states[n - 1], events[n - 1], states[n]);
  }

  /** In a behaviour the queues of all controllers always agree with what is pending if and only if
      no tick of any of them takes the losing branch. */
  lemma ExactBehaviourIff(cfg: Config, channels: nat, states: seq<System>, events: seq<Event>)
    requires Behaviour(cfg, channels, states, events)
    ensures (forall n :: 0 <= n < |states| ==> AllExact(cfg, states[n].ctrls)) <==> LosesNothing(cfg, states, events, |events|)
  {
    if LosesNothing(cfg, states, events, |events|) {
      forall n | 0 <= n < |states|
        ensures AllExact(cfg, states[n].ctrls)
      {
        ExactWhileNothingIsLost(cfg, channels, states, events, n);
      }
    }
    if forall n :: 0 <= n < |states| ==> AllExact(cfg, states[n].ctrls) {
      forall m | 0 <= m < |events|
        ensures LosesNothingAt(cfg, states[m], events[m])
      {
        assert AllExact(cfg, states[m].ctrls) && AllExact(cfg, states[m + 1].ctrls);
        BehaviourKeepsInv(cfg, channels, states, events, m);
        ExactFollowsIff(cfg, channels, states, events, m + 1);
      }
    }
  }

  /** Single issue, or positive gaps between column commands, keep every behaviour out of that
      branch. */
  lemma LosslessLosesNothing(cfg: Config, channels: nat, states: seq<System>, events: seq<Event>, n: nat)
    requires Behaviour(cfg, channels, states, events) && n < |states| && Lossless(cfg)
    ensures LosesNothing(cfg, states, events, n)
  {
    forall m | 0 <= m < n
      ensures LosesNothingAt(cfg, states[m], events[m])
    {
      if events[m].Tick? {
        BehaviourKeepsInv(cfg, channels, states, events, m);
        assert FollowsAt(cfg, states, events, m);
        LosslessTick(cfg, states[m].ctrls[events[m].channel]);
      }
    }
  }

  // ---------------------------------------------------------------- end to end

  lemma IdleHasNothing(cfg: Config, s: State, key: Bridge.Key)
    requires Exact(cfg, s) && AllQueuesEmpty(cfg, s)
    ensures Outstanding(s, key) == 0
  {
    forall a: nat
      ensures !HasAddr(s.pendRd, a)
    {
      assert Line(cfg, s, a) == Expected(s, a);
      HomeInRange(cfg, a);
      assert s.cq.queues[Home(cfg, a)] == [];
      assert Waiting(cfg, s) == [];
    }
    if s.pendRd != [] {
      assert HasAddr(s.pendRd, s.pendRd[0].addr);
    }
  }

  lemma {:induction false} IdleHaveNothing(cfg: Config, ctrls: seq<State>, key: Bridge.Key)
    requires AllExact(cfg, ctrls) && forall c :: 0 <= c < |ctrls| ==> AllQueuesEmpty(cfg, ctrls[c])
    ensures OutstandingIn(ctrls, key) == 0
  {
    if ctrls != [] {
      IdleHasNothing(cfg, ctrls[0], key);
      IdleHaveNothing(cfg, ctrls[1..], key);
    }
  }

  /** When every controller reports all queues empty, both done lists are empty: every payload that
      the memory system has accepted has been handed out, if no tick has lost a command. */
  lemma IdleMeansHandedOut(cfg: Config, channels: nat, states: seq<System>, events: seq<Event>, n: nat)
    requires Behaviour(cfg, channels, states, events) && n < |states| && LosesNothing(cfg, states, events, n)
    requires forall c :: 0 <= c < |states[n].ctrls| ==> AllQueuesEmpty(cfg, states[n].ctrls[c])
    ensures states[n].bridge.readDone == [] && states[n].bridge.writeDone == []
  {
    BehaviourKeepsInv(cfg, channels, states, events, n);
    ExactWhileNothingIsLost(cfg, channels, states, events, n);
    var s := states[n].bridge;
    var seen := SystemIsBridge(cfg, channels, states, events);
    forall key
      ensures key !in s.below
    {
      IdleHaveNothing(cfg, states[n].ctrls, key);
      assert Accounts(states[n], key);
    }
    forall p: Bridge.Payload
      ensures p !in s.readDone && p !in s.writeDone
    {
      Bridge.NothingLeftBehind(channels, Bridges(states), seen, n, p.address, false);
      Bridge.NothingLeftBehind(channels, Bridges(states), seen, n, p.address, true);
    }
    SomeMember(s.readDone);
    SomeMember(s.writeDone);
  }

  lemma SomeMember(q: seq<Bridge.Payload>)
    ensures q != [] ==> exists p :: p in q
  {
    if q != [] {
      assert q[0] in q;
    }
  }
}
