/** The order in which the PIM device retires compute commands. */
module ComputeOrder {
  import opened Basics
  import opened Pim

  function Computes(q: seq<Payload>): seq<Payload> {
    if q == [] then [] else Computes(q[..|q| - 1]) + if q[|q| - 1].kind.COMPUTE? then [q[|q| - 1]] else []
  }

  lemma {:induction false} ComputesConcat(p: seq<Payload>, q: seq<Payload>)
    ensures Computes(p + q) == Computes(p) + Computes(q)
  {
    if q == [] {
      assert p + q == p;
    } else {
      assert (p + q)[..|p + q| - 1] == p + q[..|q| - 1];
      ComputesConcat(p, q[..|q| - 1]);
    }
  }

  lemma ComputesLast(q: seq<Payload>, p: Payload)
    ensures Computes(q + [p]) == Computes(q) + if p.kind.COMPUTE? then [p] else []
  {
    assert (q + [p])[..|q|] == q;
  }

  lemma {:induction false} NoComputes(q: seq<Payload>)
    ensures Computes(q) == [] <==> forall i :: 0 <= i < |q| ==> !q[i].kind.COMPUTE?
  {
    if q != [] {
      NoComputes(q[..|q| - 1]);
    }
  }

  lemma {:induction false} OnlyComputes(q: seq<Payload>)
    ensures forall i :: 0 <= i < |Computes(q)| ==> Computes(q)[i].kind.COMPUTE? && Computes(q)[i] in q
  {
    if q != [] {
      OnlyComputes(q[..|q| - 1]);
    }
  }

  /** `i` is the first compute command of the queue, or none at all. */
  predicate FirstCompute(q: seq<Payload>, i: nat) {
    i < |q| && (q[i].kind.COMPUTE? ==> forall j :: 0 <= j < i ==> !q[j].kind.COMPUTE?)
  }

  lemma ComputesRemove(q: seq<Payload>, i: nat)
    requires FirstCompute(q, i)
    ensures Computes(q) == (if q[i].kind.COMPUTE? then [q[i]] else []) + Computes(RemoveAt(q, i))
  {
    assert q == q[..i] + ([q[i]] + q[i + 1..]);
    ComputesConcat(q[..i], [q[i]] + q[i + 1..]);
    ComputesConcat([q[i]], q[i + 1..]);
    ComputesConcat(q[..i], q[i + 1..]);
    ComputesLast([], q[i]);
    NoComputes(q[..i]);
  }

  // ---------------------------------------------------------------- the invariant

  predicate Suits(p: Payload, fast: bool) {
    p.kind.COMPUTE? ==> p.isFast == fast
  }

  predicate AllSuit(q: seq<Payload>, fast: bool) {
    forall i :: 0 <= i < |q| ==> Suits(q[i], fast)
  }

  /** The compute commands that the device has been sent and has not retired, oldest first. */
  function InDevice(s: Pim): seq<Payload> {
    s.compute.completed + Payloads(s.compute.fast) + Computes(s.bridge)
  }

  /** Compute commands are all macro commands of fast-layer mode, or none is. */
  ghost predicate OneWay(s: Pim, fast: bool) {
    && (if fast then Computes(s.bridge) == [] else s.compute.fast == [])
    && AllSuit(s.pending, fast)
    && (s.thread.ModeWait? ==> Suits(s.thread.payload, fast))
  }

  ghost predicate Ordered(s: Pim, retired: seq<Payload>) {
    retired + InDevice(s) == Computes(s.log.sent)
  }

  lemma PushInside<T>(a: seq<T>, b: seq<T>, p: seq<T>)
    ensures a + (b + p) + [] == a + b + [] + p
  {
  }

  lemma PayloadsSplit(q: seq<Timed>, n: nat)
    requires n <= |q|
    ensures Payloads(q) == Payloads(q[..n]) + Payloads(q[n..])
  {
  }

  lemma CompletedPrefix(side: Side, now: nat)
    ensures CompleteSide(side, now).completed + Payloads(CompleteSide(side, now).fast) == side.completed + Payloads(side.fast)
  {
    var n := DueCount(side.fast, now);
    PayloadsSplit(side.fast, n);
    Assoc(side.completed, Payloads(side.fast[..n]), Payloads(side.fast[n..]));
  }

  lemma CompleteFastOrders(s: Pim, retired: seq<Payload>, fast: bool)
    requires Ordered(s, retired) && OneWay(s, fast)
    ensures Ordered(CompleteFast(s), retired) && OneWay(CompleteFast(s), fast)
  {
    CompletedPrefix(s.compute, s.now);
    assert InDevice(CompleteFast(s)) == InDevice(s);
  }

  lemma CompleteBridgeOrders(s: Pim, which: Option<nat>, retired: seq<Payload>, fast: bool)
    requires which.Some? ==> FirstCompute(s.bridge, which.value)
    requires Ordered(s, retired) && OneWay(s, fast)
    ensures Ordered(CompleteBridge(s, which), retired) && OneWay(CompleteBridge(s, which), fast)
  {
    if which.Some? {
      ComputesRemove(s.bridge, which.value);
      var s' := CompleteBridge(s, which);
      if s.bridge[which.value].kind.COMPUTE? {
        assert Payloads(s.compute.fast) == [];
      }
      assert InDevice(s') == InDevice(s);
    }
  }

  /** Sending puts a compute command behind those in the device. */
  lemma SendEnters(s: Pim, p: Payload, fast: bool)
    requires OneWay(s, fast) && Suits(p, fast)
    ensures InDevice(Send(s, p)) == InDevice(s) + Computes([p])
  {
    ComputesLast([], p);
    if p.isFast {
      if p.kind.COMPUTE? {
        PayloadsSplit(Send(s, p).compute.fast, |s.compute.fast|);
        PushInside(s.compute.completed, Payloads(s.compute.fast), [p]);
      }
    } else {
      ComputesConcat(s.bridge, [p]);
      Assoc(s.compute.completed + Payloads(s.compute.fast), Computes(s.bridge), Computes([p]));
    }
  }

  lemma SendOrders(s: Pim, p: Payload, retired: seq<Payload>, fast: bool)
    requires Ordered(s, retired) && OneWay(s, fast) && Suits(p, fast)
    ensures Ordered(Send(s, p), retired) && OneWay(Send(s, p), fast)
  {
    SendEnters(s, p, fast);
    ComputesLast(s.bridge, p);
    ComputesConcat(s.log.sent, [p]);
    Assoc(retired, InDevice(s), Computes([p]));
  }

  lemma ProcessOrders(cfg: Config, s: Pim, retired: seq<Payload>, fast: bool)
    requires Ordered(s, retired) && OneWay(s, fast)
    ensures Ordered(ProcessFront(cfg, s), retired) && OneWay(ProcessFront(cfg, s), fast)
  {
    if s.pending != [] && MayProcess(s, s.pending[0]) {
      var popped := s.(pending := s.pending[1..]);
      assert InDevice(popped) == InDevice(s) && Suits(s.pending[0], fast);
      if s.mode == s.pending[0].kind {
        SendOrders(popped, s.pending[0], retired, fast);
      }
    }
  }

  // ---------------------------------------------------------------- steps

  /** The bridge hands compute commands back in the order in which it got them (BridgeOrder). */
  predicate BridgeInOrder(s: Pim, e: Event) {
    e.Iteration? && e.which.Some? ==> FirstCompute(s.bridge, e.which.value)
  }

  predicate Arrives(e: Event, fast: bool) {
    e.Arrival? ==> Suits(e.payload, fast)
  }

  /** What clock_negedge retires in this event. */
  function RetiredBy(s: Pim, e: Event): seq<Payload> {
    if e.ClockLow? && s.compute.completed != [] then [s.compute.completed[0]] else []
  }

  lemma RetireOrders(s: Pim, retired: seq<Payload>)
    requires Ordered(s, retired)
    ensures Ordered(s.(compute := Retire(s.compute)), retired + RetiredBy(s, ClockLow))
  {
    if s.compute.completed != [] {
      var head, rest := [s.compute.completed[0]], s.compute.completed[1..];
      assert s.compute.completed == head + rest;
      Assoc(head, rest, Payloads(s.compute.fast));
      Assoc(head, rest + Payloads(s.compute.fast), Computes(s.bridge));
      Assoc(retired, head, InDevice(s.(compute := Retire(s.compute))));
    }
  }

  lemma IterationOrders(cfg: Config, s: Pim, which: Option<nat>, retired: seq<Payload>, fast: bool)
    requires which.Some? ==> FirstCompute(s.bridge, which.value)
    requires Ordered(s, retired) && OneWay(s, fast)
    ensures Ordered(Iterate(cfg, s, which), retired) && OneWay(Iterate(cfg, s, which), fast)
  {
    CompleteFastOrders(s, retired, fast);
    CompleteBridgeOrders(CompleteFast(s), which, retired, fast);
    ProcessOrders(cfg, CompleteBridge(CompleteFast(s), which), retired, fast);
  }

  /** The other events leave the compute side and the bridge alone. */
  lemma OthersOrder(cfg: Config, s: Pim, e: Event, retired: seq<Payload>, fast: bool)
    requires Ordered(s, retired) && OneWay(s, fast) && Enabled(s, e) && Arrives(e, fast)
    requires e.Arrival? || e.ClockHigh? || e.Advance?
    ensures Ordered(Step(cfg, s, e), retired) && OneWay(Step(cfg, s, e), fast)
  {
    assert InDevice(Step(cfg, s, e)) == InDevice(s);
  }

  lemma StepOrders(cfg: Config, s: Pim, e: Event, retired: seq<Payload>, fast: bool)
    requires Ordered(s, retired) && OneWay(s, fast) && Enabled(s, e) && BridgeInOrder(s, e) && Arrives(e, fast)
    ensures Ordered(Step(cfg, s, e), retired + RetiredBy(s, e)) && OneWay(Step(cfg, s, e), fast)
  {
    if e.ClockLow? {
      RetireOrders(s, retired);
    } else {
      assert retired + RetiredBy(s, e) == retired;
      match e {
        case Iteration(which) => IterationOrders(cfg, s, which, retired, fast);
        case Wakeup => SendOrders(s.(mode := s.thread.payload.kind), s.thread.payload, retired, fast);
        case _ => OthersOrder(cfg, s, e, retired, fast);
      }
    }
  }

  // ---------------------------------------------------------------- all behaviours

  /** What the device has retired up to the n-th state. */
  function Retired(states: seq<Pim>, events: seq<Event>, n: nat): seq<Payload>
    requires |states| == |events| + 1 && n < |states|
  {
    if n == 0 then [] else Retired(states, events, n - 1) + RetiredBy(states[n - 1], events[n - 1])
  }

  ghost predicate InOrderAt(states: seq<Pim>, events: seq<Event>, fast: bool, i: nat)
    requires i < |events| && |states| == |events| + 1
  {
    BridgeInOrder(states[i], events[i]) && Arrives(events[i], fast)
  }

  /** The behaviour's bridge keeps compute commands in order, and they all take the same way. */
  ghost predicate OrderlyBehaviour(cfg: Config, states: seq<Pim>, events: seq<Event>, fast: bool) {
    && Behaviour(cfg, states, events)
    && forall i :: 0 <= i < |events| ==> InOrderAt(states, events, fast, i)
  }

  lemma {:induction false} BehaviourOrders(cfg: Config, states: seq<Pim>, events: seq<Event>, fast: bool, n: nat)
    requires OrderlyBehaviour(cfg, states, events, fast) && n < |states|
    ensures Ordered(states[n], Retired(states, events, n)) && OneWay(states[n], fast)
    decreases n
  {
    if n > 0 {
      BehaviourOrders(cfg, states, events, fast, n - 1);
      assert FollowsAt(cfg, states, events, n - 1) && InOrderAt(states, events, fast, n - 1);
      StepOrders(cfg, states[n - 1], events[n - 1], Retired(states, events, n - 1), fast);
    }
  }

  /** The compute commands that have arrived and are not retired, oldest first. */
  function Unretired(s: Pim): seq<Payload> {
    InDevice(s) + Computes(InTransit(s.thread)) + Computes(s.pending)
  }

  /** The device retires compute commands in the order in which they arrive, each exactly once, and
      those not yet retired are in it. */
  lemma RetiredInOrder(cfg: Config, states: seq<Pim>, events: seq<Event>, fast: bool, n: nat)
    requires OrderlyBehaviour(cfg, states, events, fast) && n < |states|
    ensures Retired(states, events, n) + Unretired(states[n]) == Computes(states[n].log.arrived)
    ensures states[n].compute.count == |InDevice(states[n])|
  {
    BehaviourOrders(cfg, states, events, fast, n);
    BehaviourKeepsInv(cfg, states, events, n);
    ArrivedAre(states[n], Retired(states, events, n));
    CountIsComputes(states[n].bridge);
  }

  lemma ArrivedAre(s: Pim, retired: seq<Payload>)
    requires Ordered(s, retired) && OrderInv(s, InTransit(s.thread))
    ensures retired + Unretired(s) == Computes(s.log.arrived)
  {
    var transit := InTransit(s.thread);
    ComputesConcat(s.log.sent + transit, s.pending);
    ComputesConcat(s.log.sent, transit);
    Assoc(retired, InDevice(s), Computes(transit));
    Assoc(retired, InDevice(s) + Computes(transit), Computes(s.pending));
  }

  lemma {:induction false} CountIsComputes(q: seq<Payload>)
    ensures CountKind(q, COMPUTE) == |Computes(q)|
  {
    if q != [] {
      var front := q[..|q| - 1];
      assert q == front + [q[|q| - 1]];
      CountIsComputes(front);
      CountAppend(front, q[|q| - 1], COMPUTE);
    }
  }
}
