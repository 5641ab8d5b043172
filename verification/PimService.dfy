/** How long the PIM device serves each fast request, when it starts, and how long it takes to change
    its mode. */
module PimService {
  import opened Basics
  import opened Pim

  // ---------------------------------------------------------------- exact services

  /** The duration of a request on the device, in picoseconds. */
  function Duration(p: Payload): nat {
    p.durationNs * 1000 + if p.kind.COMPUTE? then 500 else 0
  }

  /** Service `i` lasts as long as its request says, and starts as soon as it has been sent and the
      service before it is over. */
  predicate ExactAt(services: seq<Service>, i: nat)
    requires i < |services|
  {
    var v := services[i];
    && v.done == v.start + Duration(v.payload)
    && v.start == Max(v.sentAt, if i == 0 then 0 else services[i - 1].done)
  }

  ghost predicate Exact(services: seq<Service>) {
    forall i :: 0 <= i < |services| ==> ExactAt(services, i)
  }

  /** The end of the last service of a kind. */
  function LastDone(services: seq<Service>, kind: Mode): nat {
    if services == [] then 0
    else
      var v := services[|services| - 1];
      if v.payload.kind == kind then v.done else LastDone(services[..|services| - 1], kind)
  }

  /** Each side is available from the end of its last service on. */
  ghost predicate Reserved(s: Pim) {
    && s.memory.available == LastDone(s.log.services, MEMORY)
    && s.compute.available == LastDone(s.log.services, COMPUTE)
  }

  lemma {:induction false} LastDoneIsEarlier(services: seq<Service>, kind: Mode, t: nat)
    requires forall i :: 0 <= i < |services| ==> services[i].done <= t
    ensures LastDone(services, kind) <= t
  {
    if services != [] {
      LastDoneIsEarlier(services[..|services| - 1], kind, t);
    }
  }

  /** With the other side idle, a service starts at once or right after the one before it. */
  lemma StartIsExact(s: Pim, p: Payload)
    requires ServicesOk(s) && Serial(s.log.services) && Reserved(s)
    requires SideInv(s.At(Other(p.kind)), CountKind(s.bridge, Other(p.kind))) && !s.At(Other(p.kind)).busy
    ensures var n := |s.log.services|;
            StartTime(s.At(p.kind), s.now) == Max(s.now, if n == 0 then 0 else s.log.services[n - 1].done)
  {
    var services := s.log.services;
    if services != [] {
      var n := |services| - 1;
      var last := services[n];
      assert Covers(s.At(last.payload.kind), s.now, last);
      if last.payload.kind != p.kind {
        assert s.At(last.payload.kind).fast == [];
        LastDoneIsEarlier(services[..n], p.kind, last.start);
      }
    }
  }

  lemma SendKeepsExact(s: Pim, p: Payload)
    requires ServicesOk(s) && Serial(s.log.services) && Reserved(s) && Exact(s.log.services)
    requires SideInv(s.At(Other(p.kind)), CountKind(s.bridge, Other(p.kind))) && !s.At(Other(p.kind)).busy
    ensures Exact(Send(s, p).log.services) && Reserved(Send(s, p))
  {
    StartIsExact(s, p);
    var services, services' := s.log.services, Send(s, p).log.services;
    forall i | 0 <= i < |services'|
      ensures ExactAt(services', i)
    {
      if i < |services| {
        assert ExactAt(services, i);
      }
    }
    if p.isFast {
      assert services'[..|services|] == services;
    }
  }

  // ---------------------------------------------------------------- the completion queues

  function OfKind(services: seq<Service>, kind: Mode): seq<Service> {
    if services == [] then []
    else
      var v := services[|services| - 1];
      OfKind(services[..|services| - 1], kind) + if v.payload.kind == kind then [v] else []
  }

  function Timeds(services: seq<Service>): (q: seq<Timed>)
    ensures |q| == |services|
    ensures forall i :: 0 <= i < |services| ==> q[i] == Timed(services[i].done, services[i].payload)
  {
    seq(|services|, i requires 0 <= i < |services| => Timed(services[i].done, services[i].payload))
  }

  /** The completion queue holds the last services of its kind, and the others are over. */
  ghost predicate QueueIsTail(q: seq<Timed>, services: seq<Service>, now: nat) {
    && |q| <= |services|
    && q == Timeds(services[|services| - |q|..])
    && forall i :: 0 <= i < |services| - |q| ==> services[i].done <= now
  }

  ghost predicate Over(services: seq<Service>, p: Payload, now: nat) {
    exists i :: 0 <= i < |services| && services[i].payload == p && services[i].done <= now
  }

  /** A fast request is in the completed queue only after the end of a service of it. */
  ghost predicate AllOver(completed: seq<Payload>, services: seq<Service>, now: nat) {
    forall p :: p in completed && p.isFast ==> Over(services, p, now)
  }

  ghost predicate KindInv(side: Side, services: seq<Service>, kind: Mode, now: nat) {
    QueueIsTail(side.fast, OfKind(services, kind), now) && AllOver(side.completed, services, now)
  }

  /** Only requests that are not fast take the bridge. */
  predicate BridgeIsSlow(bridge: seq<Payload>) {
    forall i :: 0 <= i < |bridge| ==> !bridge[i].isFast
  }

  ghost predicate QueuesInv(s: Pim) {
    && BridgeIsSlow(s.bridge)
    && KindInv(s.memory, s.log.services, MEMORY, s.now)
    && KindInv(s.compute, s.log.services, COMPUTE, s.now)
  }

  lemma {:induction false} OfKindMembers(services: seq<Service>, kind: Mode)
    ensures forall v :: v in OfKind(services, kind) ==> v in services
  {
    if services != [] {
      OfKindMembers(services[..|services| - 1], kind);
    }
  }

  lemma TailShortens(q: seq<Timed>, services: seq<Service>, now: nat)
    requires QueueIsTail(q, services, now)
    ensures QueueIsTail(q[DueCount(q, now)..], services, now)
  {
    var n, k := DueCount(q, now), |services| - |q|;
    forall i | k <= i < k + n
      ensures services[i].done <= now
    {
      assert q[i - k].time <= now;
    }
  }

  /** A due entry is a service that is over. */
  lemma DueIsOver(q: seq<Timed>, services: seq<Service>, now: nat, i: nat)
    requires QueueIsTail(q, services, now) && i < DueCount(q, now)
    ensures var v := services[|services| - |q| + i]; v.payload == q[i].payload && v.done <= now
  {
    assert q[i] == Timeds(services[|services| - |q|..])[i];
  }

  lemma DueAreOver(q: seq<Timed>, services: seq<Service>, kind: Mode, now: nat)
    requires QueueIsTail(q, OfKind(services, kind), now)
    ensures AllOver(Payloads(q[..DueCount(q, now)]), services, now)
  {
    var due, mine := Payloads(q[..DueCount(q, now)]), OfKind(services, kind);
    forall p | p in due && p.isFast
      ensures Over(services, p, now)
    {
      var i :| 0 <= i < |due| && due[i] == p;
      DueIsOver(q, mine, now, i);
      OfKindMembers(services, kind);
      assert mine[|mine| - |q| + i] in services;
    }
  }

  lemma OverConcat(a: seq<Payload>, b: seq<Payload>, services: seq<Service>, now: nat)
    requires AllOver(a, services, now) && AllOver(b, services, now)
    ensures AllOver(a + b, services, now)
  {
  }

  lemma CompletingKeepsKind(side: Side, services: seq<Service>, kind: Mode, now: nat)
    requires KindInv(side, services, kind, now)
    ensures KindInv(CompleteSide(side, now), services, kind, now)
  {
    TailShortens(side.fast, OfKind(services, kind), now);
    DueAreOver(side.fast, services, kind, now);
    OverConcat(side.completed, Payloads(side.fast[..DueCount(side.fast, now)]), services, now);
  }

  lemma CompleteFastKeepsQueues(s: Pim)
    requires QueuesInv(s)
    ensures QueuesInv(CompleteFast(s))
  {
    CompletingKeepsKind(s.memory, s.log.services, MEMORY, s.now);
    CompletingKeepsKind(s.compute, s.log.services, COMPUTE, s.now);
  }

  /** The bridge hands over a request that is not fast. */
  lemma HandOverKeepsKind(side: Side, services: seq<Service>, kind: Mode, now: nat, p: Payload)
    requires KindInv(side, services, kind, now) && !p.isFast
    ensures KindInv(side.(completed := side.completed + [p]), services, kind, now)
  {
  }

  lemma CompleteBridgeKeepsQueues(s: Pim, which: Option<nat>)
    requires which.Some? ==> which.value < |s.bridge|
    requires QueuesInv(s)
    ensures QueuesInv(CompleteBridge(s, which))
  {
    if which.Some? {
      var p := s.bridge[which.value];
      HandOverKeepsKind(s.At(p.kind), s.log.services, p.kind, s.now, p);
      SlowRemains(s.bridge, which.value);
    }
  }

  lemma SlowRemains(bridge: seq<Payload>, i: nat)
    requires i < |bridge| && BridgeIsSlow(bridge)
    ensures BridgeIsSlow(RemoveAt(bridge, i))
  {
  }

  lemma TailGrows(q: seq<Timed>, services: seq<Service>, now: nat, v: Service)
    requires QueueIsTail(q, services, now)
    ensures QueueIsTail(q + [Timed(v.done, v.payload)], services + [v], now)
  {
    var k := |services| - |q|;
    assert (services + [v])[k..] == services[k..] + [v];
    assert Timeds(services[k..] + [v]) == Timeds(services[k..]) + [Timed(v.done, v.payload)];
  }

  lemma OfKindGrows(services: seq<Service>, v: Service, kind: Mode)
    ensures OfKind(services + [v], kind) == OfKind(services, kind) + if v.payload.kind == kind then [v] else []
  {
    assert (services + [v])[..|services|] == services;
  }

  lemma OverRemains(completed: seq<Payload>, services: seq<Service>, v: Service, now: nat)
    requires AllOver(completed, services, now)
    ensures AllOver(completed, services + [v], now)
  {
    forall p | p in completed && p.isFast
      ensures Over(services + [v], p, now)
    {
      var i :| 0 <= i < |services| && services[i].payload == p && services[i].done <= now;
      assert (services + [v])[i] == services[i];
    }
  }

  /** The service that sending a fast request logs. */
  function Logged(s: Pim, p: Payload): Service {
    Service(p, s.now, StartTime(s.At(p.kind), s.now), DoneTime(s.At(p.kind), s.now, p))
  }

  lemma ServiceKeepsOther(side: Side, services: seq<Service>, kind: Mode, now: nat, v: Service)
    requires KindInv(side, services, kind, now) && v.payload.kind != kind
    ensures KindInv(side, services + [v], kind, now)
  {
    OfKindGrows(services, v, kind);
    OverRemains(side.completed, services, v, now);
  }

  lemma ServiceKeepsOwn(side: Side, services: seq<Service>, kind: Mode, now: nat, v: Service, side': Side)
    requires KindInv(side, services, kind, now) && v.payload.kind == kind
    requires side'.completed == side.completed && side'.fast == side.fast + [Timed(v.done, v.payload)]
    ensures KindInv(side', services + [v], kind, now)
  {
    OfKindGrows(services, v, kind);
    TailGrows(side.fast, OfKind(services, kind), now, v);
    OverRemains(side.completed, services, v, now);
  }

  lemma SendKeepsQueues(s: Pim, p: Payload)
    requires QueuesInv(s)
    ensures QueuesInv(Send(s, p))
  {
    if p.isFast {
      FastKeepsQueues(s, p);
    } else {
      SlowKeepsQueues(s, p);
    }
  }

  lemma FastKeepsQueues(s: Pim, p: Payload)
    requires QueuesInv(s) && p.isFast
    ensures QueuesInv(Send(s, p))
  {
    var v := Logged(s, p);
    ServiceKeepsOther(s.At(Other(p.kind)), s.log.services, Other(p.kind), s.now, v);
    ServiceKeepsOwn(s.At(p.kind), s.log.services, p.kind, s.now, v, Occupy(s.At(p.kind), s.now, p));
  }

  lemma OccupyKeepsKind(side: Side, services: seq<Service>, kind: Mode, now: nat, p: Payload)
    requires KindInv(side, services, kind, now) && !p.isFast
    ensures KindInv(Occupy(side, now, p), services, kind, now)
  {
  }

  lemma SlowKeepsQueues(s: Pim, p: Payload)
    requires QueuesInv(s) && !p.isFast
    ensures QueuesInv(Send(s, p))
  {
    OccupyKeepsKind(s.At(p.kind), s.log.services, p.kind, s.now, p);
    SlowGrows(s.bridge, p);
  }

  lemma SlowGrows(bridge: seq<Payload>, p: Payload)
    requires BridgeIsSlow(bridge) && !p.isFast
    ensures BridgeIsSlow(bridge + [p])
  {
  }

  lemma RetiringKeepsKind(side: Side, services: seq<Service>, kind: Mode, now: nat)
    requires KindInv(side, services, kind, now)
    ensures KindInv(Retire(side), services, kind, now)
  {
    if side.completed != [] {
      assert forall p :: p in side.completed[1..] ==> p in side.completed;
    }
  }

  lemma LaterKeepsKind(side: Side, services: seq<Service>, kind: Mode, now: nat, later: nat)
    requires KindInv(side, services, kind, now) && now <= later
    ensures KindInv(side, services, kind, later)
  {
    forall p | p in side.completed && p.isFast
      ensures Over(services, p, later)
    {
      assert Over(services, p, now);
    }
  }

  /** Time goes on, and requests retire. */
  lemma OthersKeepQueues(cfg: Config, s: Pim, e: Event)
    requires QueuesInv(s) && Enabled(s, e) && !e.Iteration? && !e.Wakeup?
    ensures QueuesInv(Step(cfg, s, e))
  {
    match e {
      case Arrival(_) =>
      case ClockHigh => RetiringKeepsKind(s.memory, s.log.services, MEMORY, s.now);
      case ClockLow => RetiringKeepsKind(s.compute, s.log.services, COMPUTE, s.now);
      case Advance(ps) =>
        LaterKeepsKind(s.memory, s.log.services, MEMORY, s.now, s.now + ps);
        LaterKeepsKind(s.compute, s.log.services, COMPUTE, s.now, s.now + ps);
    }
  }

  // ---------------------------------------------------------------- steps

  ghost predicate ServiceInv(s: Pim) {
    Exact(s.log.services) && Reserved(s) && QueuesInv(s)
  }

  lemma SendKeepsService(s: Pim, p: Payload)
    requires ServiceInv(s) && ServicesOk(s) && Serial(s.log.services)
    requires SideInv(s.At(Other(p.kind)), CountKind(s.bridge, Other(p.kind))) && !s.At(Other(p.kind)).busy
    ensures ServiceInv(Send(s, p))
  {
    SendKeepsExact(s, p);
    SendKeepsQueues(s, p);
  }

  lemma ProcessKeepsService(cfg: Config, s: Pim)
    requires ServiceInv(s) && SidesInv(s) && FifoInv(s) && s.thread.Idle?
    ensures ServiceInv(ProcessFront(cfg, s))
  {
    if s.pending != [] && MayProcess(s, s.pending[0]) {
      var popped := s.(pending := s.pending[1..]);
      QueuesOnly(s, popped);
      if s.mode == s.pending[0].kind {
        SendKeepsService(popped, s.pending[0]);
      } else {
        QueuesOnly(s, BeginSend(cfg, popped, s.pending[0]));
      }
    }
  }

  /** The invariant speaks of sides, bridge, services and time alone. */
  lemma QueuesOnly(s: Pim, s': Pim)
    requires ServiceInv(s)
    requires s'.now == s.now && s'.bridge == s.bridge && s'.memory == s.memory && s'.compute == s.compute
    requires s'.log.services == s.log.services
    ensures ServiceInv(s')
  {
  }

  lemma IterationKeepsService(cfg: Config, s: Pim, which: Option<nat>)
    requires ServiceInv(s) && Inv(s) && Enabled(s, Iteration(which))
    ensures ServiceInv(Step(cfg, s, Iteration(which)))
  {
    var completed := Completing(s, which);
    ProcessKeepsService(cfg, completed);
  }

  /** What completions leave alone. */
  lemma CompleteFrame(s: Pim, which: Option<nat>)
    requires which.Some? ==> which.value < |s.bridge|
    ensures var c := CompleteBridge(CompleteFast(s), which);
            && c.log == s.log && c.pending == s.pending && c.thread == s.thread && c.mode == s.mode && c.now == s.now
            && c.memory.available == s.memory.available && c.compute.available == s.compute.available
            && c.memory.busy == s.memory.busy && c.compute.busy == s.compute.busy
  {
  }

  lemma CompleteKeepsQueues(s: Pim, which: Option<nat>)
    requires QueuesInv(s) && (which.Some? ==> which.value < |s.bridge|)
    ensures QueuesInv(CompleteBridge(CompleteFast(s), which))
  {
    CompleteFastKeepsQueues(s);
    CompleteBridgeKeepsQueues(CompleteFast(s), which);
  }

  lemma CompleteKeepsReserved(s: Pim, which: Option<nat>)
    requires Exact(s.log.services) && Reserved(s) && (which.Some? ==> which.value < |s.bridge|)
    ensures var c := CompleteBridge(CompleteFast(s), which); Exact(c.log.services) && Reserved(c)
  {
    CompleteFrame(s, which);
  }

  /** The state in which an iteration looks at the pending queue. */
  lemma Completing(s: Pim, which: Option<nat>) returns (completed: Pim)
    requires ServiceInv(s) && Inv(s) && (which.Some? ==> which.value < |s.bridge|)
    ensures completed == CompleteBridge(CompleteFast(s), which)
    ensures ServiceInv(completed) && SidesInv(completed) && FifoInv(completed) && completed.thread == s.thread
  {
    completed := CompleteBridge(CompleteFast(s), which);
    CompleteKeepsQueues(s, which);
    CompleteKeepsReserved(s, which);
    CompleteKeepsSides(s, which);
    CompleteKeepsFifo(s, which);
  }

  lemma WakeupKeepsService(cfg: Config, s: Pim)
    requires ServiceInv(s) && Inv(s) && Enabled(s, Wakeup)
    ensures ServiceInv(Step(cfg, s, Wakeup))
  {
    var changed := s.(mode := s.thread.payload.kind);
    QueuesOnly(s, changed);
    SendKeepsService(changed, s.thread.payload);
  }

  lemma StepKeepsService(cfg: Config, s: Pim, e: Event)
    requires ServiceInv(s) && Inv(s) && Enabled(s, e)
    ensures ServiceInv(Step(cfg, s, e))
  {
    match e {
      case Iteration(which) => IterationKeepsService(cfg, s, which);
      case Wakeup => WakeupKeepsService(cfg, s);
      case _ => OthersKeepQueues(cfg, s, e);
    }
  }

  lemma {:induction false} BehaviourKeepsService(cfg: Config, states: seq<Pim>, events: seq<Event>, n: nat)
    requires Behaviour(cfg, states, events) && n < |states|
    ensures ServiceInv(states[n])
    decreases n
  {
    if n > 0 {
      BehaviourKeepsService(cfg, states, events, n - 1);
      BehaviourKeepsInv(cfg, states, events, n - 1);
      assert FollowsAt(cfg, states, events, n - 1);
      StepKeepsService(cfg, states[n - 1], events[n - 1]);
    }
  }

  // ---------------------------------------------------------------- all behaviours

  /** Every service of every behaviour lasts exactly 1000 picoseconds for each nanosecond of its
      request, and 500 more for a compute command, and it starts at the later of the time it was sent
      and the end of the service before it. */
  lemma ServicesAreExact(cfg: Config, states: seq<Pim>, events: seq<Event>, n: nat, i: nat)
    requires Behaviour(cfg, states, events) && n < |states| && i < |states[n].log.services|
    ensures var v := states[n].log.services[i];
            && v.done - v.start == v.payload.durationNs * 1000 + (if v.payload.kind.COMPUTE? then 500 else 0)
            && v.start == (if i == 0 then v.sentAt else Max(v.sentAt, states[n].log.services[i - 1].done))
  {
    BehaviourKeepsService(cfg, states, events, n);
    assert ExactAt(states[n].log.services, i);
  }

  /** Every fast request in the completed queue of a side has had a service that is over. */
  ghost predicate CompletedWereServed(side: Side, services: seq<Service>, now: nat) {
    forall p :: p in side.completed && p.isFast ==> exists v :: v in services && v.payload == p && v.done <= now
  }

  /** In every behaviour the completion queue of a side holds the last services of its kind, in order,
      with their ends; the others are over, and a fast request that is completed has had a service
      that is over. */
  lemma CompletedAfterService(cfg: Config, states: seq<Pim>, events: seq<Event>, n: nat, kind: Mode)
    requires Behaviour(cfg, states, events) && n < |states|
    ensures var q, mine := states[n].At(kind).fast, OfKind(states[n].log.services, kind);
            && |q| <= |mine|
            && q == Timeds(mine[|mine| - |q|..])
            && forall i :: 0 <= i < |mine| - |q| ==> mine[i].done <= states[n].now
    ensures CompletedWereServed(states[n].At(kind), states[n].log.services, states[n].now)
  {
    BehaviourKeepsService(cfg, states, events, n);
    OverMeans(states[n].At(kind).completed, states[n].log.services, states[n].now);
  }

  lemma OverMeans(completed: seq<Payload>, services: seq<Service>, now: nat)
    requires AllOver(completed, services, now)
    ensures forall p :: p in completed && p.isFast ==> exists v :: v in services && v.payload == p && v.done <= now
  {
    forall p | p in completed && p.isFast
      ensures exists v :: v in services && v.payload == p && v.done <= now
    {
      assert Over(services, p, now);
      var i :| 0 <= i < |services| && services[i].payload == p && services[i].done <= now;
      assert services[i] in services;
    }
  }

  // ---------------------------------------------------------------- what an iteration takes

  /** The device has no request of the kind. */
  predicate NoneInDevice(s: Pim, kind: Mode) {
    s.At(kind).fast == [] && s.At(kind).completed == [] && CountKind(s.bridge, kind) == 0
  }

  /** An iteration takes the oldest pending request if and only if the device has none of the other
      kind, and takes nothing otherwise. */
  lemma IterationTakesIff(cfg: Config, states: seq<Pim>, events: seq<Event>, n: nat, which: Option<nat>)
    requires Behaviour(cfg, states, events) && n < |states| && Enabled(states[n], Iteration(which))
    ensures var s, s' := states[n], Step(cfg, states[n], Iteration(which));
            if s.pending != [] && NoneInDevice(s, Other(s.pending[0].kind)) then s'.pending == s.pending[1..]
            else s'.pending == s.pending && s'.thread.Idle? && s'.log == s.log
  {
    BehaviourKeepsInv(cfg, states, events, n);
    IterationTakes(cfg, states[n], which);
    if states[n].pending != [] {
      BusyIffInDevice(states[n], Other(states[n].pending[0].kind));
    }
  }

  /** From `s` to `s'` the oldest pending request is taken exactly if the other side is not busy. */
  predicate Took(s: Pim, s': Pim) {
    if s.pending != [] && !s.At(Other(s.pending[0].kind)).busy then s'.pending == s.pending[1..]
    else s'.pending == s.pending && s'.thread.Idle? && s'.log == s.log
  }

  lemma IterationTakes(cfg: Config, s: Pim, which: Option<nat>)
    requires Enabled(s, Iteration(which))
    ensures Took(s, Step(cfg, s, Iteration(which)))
  {
    var completed := CompletingFrame(s, which);
    ProcessTakes(cfg, completed);
    TookFrom(s, completed, ProcessFront(cfg, completed));
  }

  lemma TookFrom(s: Pim, c: Pim, s': Pim)
    requires c.log == s.log && c.pending == s.pending && c.memory.busy == s.memory.busy && c.compute.busy == s.compute.busy
    requires Took(c, s')
    ensures Took(s, s')
  {
  }

  lemma CompletingFrame(s: Pim, which: Option<nat>) returns (c: Pim)
    requires which.Some? ==> which.value < |s.bridge|
    ensures c == CompleteBridge(CompleteFast(s), which)
    ensures c.log == s.log && c.pending == s.pending && c.thread == s.thread
    ensures c.memory.busy == s.memory.busy && c.compute.busy == s.compute.busy
  {
    c := CompleteBridge(CompleteFast(s), which);
    CompleteFrame(s, which);
  }

  lemma ProcessTakes(cfg: Config, s: Pim)
    requires s.thread.Idle?
    ensures Took(s, ProcessFront(cfg, s))
  {
  }

  lemma BusyIffInDevice(s: Pim, kind: Mode)
    requires SidesInv(s)
    ensures s.At(kind).busy <==> !NoneInDevice(s, kind)
  {
  }

  /** What the bridge hands back joins the completed requests of its kind, behind the fast ones that
      are due, and nothing else leaves the bridge. */
  lemma BridgeHandsOver(s: Pim, i: nat, kind: Mode)
    requires i < |s.bridge|
    ensures var p, c := s.bridge[i], CompleteBridge(CompleteFast(s), Some(i));
            && c.bridge == s.bridge[..i] + s.bridge[i + 1..]
            && c.At(kind).completed == CompleteFast(s).At(kind).completed + if p.kind == kind then [p] else []
  {
  }

  // ---------------------------------------------------------------- mode changes

  function ModeDelay(cfg: Config, kind: Mode): nat {
    if kind.MEMORY? then cfg.toMemoryDelayNs else cfg.toComputeDelayNs
  }

  lemma EnterWait(cfg: Config, s: Pim, e: Event, s': Pim)
    requires Follows(cfg, s, e, s') && s.thread.Idle? && s'.thread.ModeWait?
    ensures s'.thread.wake == s.now + ModeDelay(cfg, s'.thread.payload.kind) * 1000
    ensures s.pending != [] && s'.thread.payload == s.pending[0] && s.mode != s'.thread.payload.kind
  {
  }

  lemma StayInWait(cfg: Config, s: Pim, e: Event, s': Pim)
    requires Follows(cfg, s, e, s') && s.thread.ModeWait? && s'.thread.ModeWait?
    ensures s'.thread == s.thread
  {
  }

  lemma {:induction false} WaitIsConstant(cfg: Config, states: seq<Pim>, events: seq<Event>, i: nat, j: nat)
    requires Behaviour(cfg, states, events) && i <= j < |states|
    requires forall k :: i <= k <= j ==> states[k].thread.ModeWait?
    ensures states[j].thread == states[i].thread
    decreases j - i
  {
    if i < j {
      WaitIsConstant(cfg, states, events, i, j - 1);
      assert FollowsAt(cfg, states, events, j - 1);
      StayInWait(cfg, states[j - 1], events[j - 1], states[j]);
    }
  }

  /** A mode change takes exactly the delay of its own direction: from the iteration that begins it
      to the wake-up that ends it, and the mode is that of the request from then on. */
  lemma ModeChangeTakes(cfg: Config, states: seq<Pim>, events: seq<Event>, i: nat, j: nat)
    requires Behaviour(cfg, states, events) && i < j < |events|
    requires states[i].thread.Idle? && events[j].Wakeup?
    requires forall k :: i < k <= j ==> states[k].thread.ModeWait?
    ensures var p := states[j].thread.payload;
            && states[i].pending != [] && p == states[i].pending[0] && states[i].mode != p.kind
            && states[j].now == states[i].now + 1000 * (if p.kind.MEMORY? then cfg.toMemoryDelayNs else cfg.toComputeDelayNs)
            && states[j + 1].mode == p.kind
  {
    assert FollowsAt(cfg, states, events, i);
    EnterWait(cfg, states[i], events[i], states[i + 1]);
    WaitIsConstant(cfg, states, events, i + 1, j);
    LeaveWait(cfg, states, events, j);
  }

  lemma LeaveWait(cfg: Config, states: seq<Pim>, events: seq<Event>, j: nat)
    requires Behaviour(cfg, states, events) && j < |events| && events[j].Wakeup?
    ensures states[j].thread.ModeWait? && states[j].now == states[j].thread.wake
    ensures states[j + 1].mode == states[j].thread.payload.kind
  {
    assert FollowsAt(cfg, states, events, j);
  }
}
