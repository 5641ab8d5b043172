/** The unified PIM device (pim_wrapper.cpp): one thread that serves compute and memory requests
    in arrival order, two clock methods that retire them, and the arrival callback. The SystemC
    scheduler interleaves them at their wait points in any order; time never goes back. */
module Pim {
  import opened Basics

  datatype Mode = COMPUTE | MEMORY

  /** `isFast` holds for macro compute commands in fast-layer mode and for fast_memory
      requests; they never enter the DRAM bridge. `durationNs` is the latency that the command or
      the DRAM macro model gives it. */
  datatype Payload = Payload(id: nat, kind: Mode, isFast: bool, durationNs: nat)

  datatype Timed = Timed(time: nat, payload: Payload)

  /** The unified thread is between iterations, or inside the wait of a mode change. */
  datatype Thread = Idle | ModeWait(payload: Payload, wake: nat)

  /** A fast request's interval on the device, in picoseconds, and when it was sent there. */
  datatype Service = Service(payload: Payload, sentAt: nat, start: nat, done: nat)

  datatype Config = Config(toMemoryDelayNs: nat, toComputeDelayNs: nat)

  /** The queues, flags and times of one side of the device, memory or compute. */
  datatype Side = Side(fast: seq<Timed>, completed: seq<Payload>, available: nat, busy: bool, count: nat)

  /** Everything that arrived, everything that was sent, and the services of fast requests. */
  datatype Log = Log(arrived: seq<Payload>, sent: seq<Payload>, services: seq<Service>)

  datatype Pim = Pim(
    now: nat,
    pending: seq<Payload>,
    bridge: seq<Payload>,
    memory: Side,
    compute: Side,
    mode: Mode,
    modeChanges: nat,
    thread: Thread,
    log: Log)
  {
    function At(kind: Mode): Side {
      if kind.COMPUTE? then compute else memory
    }

    function With(kind: Mode, side: Side): Pim {
      if kind.COMPUTE? then this.(compute := side) else this.(memory := side)
    }
  }

  const FREE_SIDE := Side([], [], 0, false, 0)
  const INITIAL := Pim(0, [], [], FREE_SIDE, FREE_SIDE, MEMORY, 0, Idle, Log([], [], []))

  /** `--count` on an unsigned int. */
  function Decrement(n: nat): nat {
    if n == 0 then 0xFFFF_FFFF else n - 1
  }

  function Other(kind: Mode): Mode {
    if kind.COMPUTE? then MEMORY else COMPUTE
  }

  // ---------------------------------------------------------------- one side

  /** How many front entries of a completion queue are due. */
  function DueCount(q: seq<Timed>, now: nat): (n: nat)
    ensures n <= |q|
    ensures forall i :: 0 <= i < n ==> q[i].time <= now
    ensures n < |q| ==> q[n].time > now
  {
    if q != [] && q[0].time <= now then 1 + DueCount(q[1..], now) else 0
  }

  function Payloads(q: seq<Timed>): (r: seq<Payload>)
    ensures |r| == |q|
    ensures forall i :: 0 <= i < |q| ==> r[i] == q[i].payload
  {
    seq(|q|, i requires 0 <= i < |q| => q[i].payload)
  }

  /** complete_fast_memory_requests, complete_fast_compute_requests */
  function CompleteSide(side: Side, now: nat): Side {
    var n := DueCount(side.fast, now);
    side.(fast := side.fast[n..], completed := side.completed + Payloads(side.fast[..n]))
  }

  function StartTime(side: Side, now: nat): nat {
    Max(now, side.available)
  }

  /** A compute macro adds half a nanosecond to its address-coded delay. */
  function DoneTime(side: Side, now: nat, p: Payload): nat {
    StartTime(side, now) + p.durationNs * 1000 + if p.kind.COMPUTE? then 500 else 0
  }

  /** A request is handed to the side. */
  function Occupy(side: Side, now: nat, p: Payload): Side {
    var busy := side.(busy := true, count := side.count + 1);
    if p.isFast then
      var done := DoneTime(side, now, p);
      busy.(fast := side.fast + [Timed(done, p)], available := done)
    else busy
  }

  /** clock_posedge, clock_negedge */
  function Retire(side: Side): Side {
    if side.completed == [] then side
    else
      var n := Decrement(side.count);
      side.(completed := side.completed[1..], count := n, busy := if n == 0 then false else side.busy)
  }

  // ---------------------------------------------------------------- steps

  /** peq_cb */
  function Arrive(s: Pim, p: Payload): Pim {
    s.(pending := s.pending + [p], log := s.log.(arrived := s.log.arrived + [p]))
  }

  function CompleteFast(s: Pim): Pim {
    s.(memory := CompleteSide(s.memory, s.now), compute := CompleteSide(s.compute, s.now))
  }

  /** The bridge hands back any one of the requests it holds, or none. */
  function CompleteBridge(s: Pim, which: Option<nat>): Pim
    requires which.Some? ==> which.value < |s.bridge|
  {
    if which.None? then s
    else
      var p := s.bridge[which.value];
      var side := s.At(p.kind);
      s.(bridge := RemoveAt(s.bridge, which.value)).With(p.kind, side.(completed := side.completed + [p]))
  }

  /** The part of send_transaction after the mode transition. */
  function Send(s: Pim, p: Payload): Pim {
    var side := s.At(p.kind);
    var services :=
      if p.isFast then s.log.services + [Service(p, s.now, StartTime(side, s.now), DoneTime(side, s.now, p))] else s.log.services;
    s.(thread := Idle,
    bridge := if p.isFast then s.bridge else s.bridge + [p],
    log := s.log.(sent := s.log.sent + [p], services := services))
    .With(p.kind, Occupy(side, s.now, p))
  }

  /** send_transaction up to the wait of process_mode_transition, or to its end. */
  function BeginSend(cfg: Config, s: Pim, p: Payload): Pim {
    if s.mode == p.kind then Send(s, p)
    else
      var delay := if p.kind.MEMORY? then cfg.toMemoryDelayNs else cfg.toComputeDelayNs;
      s.(modeChanges := s.modeChanges + 1, thread := ModeWait(p, s.now + delay * 1000))
  }

  /** The front request may start: the other side is not busy. */
  predicate MayProcess(s: Pim, p: Payload) {
    !s.At(Other(p.kind)).busy
  }

  /** The thread looks at the front of the pending queue. */
  function ProcessFront(cfg: Config, s: Pim): Pim {
    if s.pending != [] && MayProcess(s, s.pending[0]) then
      BeginSend(cfg, s.(pending := s.pending[1..]), s.pending[0])
    else s
  }

  /** One iteration of simulate_unified_pim, up to its next wait. */
  function Iterate(cfg: Config, s: Pim, which: Option<nat>): Pim
    requires which.Some? ==> which.value < |s.bridge|
  {
    ProcessFront(cfg, CompleteBridge(CompleteFast(s), which))
  }

  /** The thread resumes from the wait of a mode change. */
  function Resume(s: Pim): Pim
    requires s.thread.ModeWait?
  {
    Send(s.(mode := s.thread.payload.kind), s.thread.payload)
  }

  datatype Event =
    | Arrival(payload: Payload)
    | Iteration(which: Option<nat>)
    | Wakeup
    | ClockHigh
    | ClockLow
    | Advance(ps: nat)

  /** What the scheduler may do next: a wait for a mode change ends exactly on time. */
  predicate Enabled(s: Pim, e: Event) {
    match e
    case Arrival(_) => true
    case Iteration(which) => s.thread.Idle? && (which.Some? ==> which.value < |s.bridge|)
    case Wakeup => s.thread.ModeWait? && s.now == s.thread.wake
    case ClockHigh => true
    case ClockLow => true
    case Advance(ps) => s.thread.ModeWait? ==> s.now + ps <= s.thread.wake
  }

  function Step(cfg: Config, s: Pim, e: Event): Pim
    requires Enabled(s, e)
  {
    match e
    case Arrival(p) => Arrive(s, p)
    case Iteration(which) => Iterate(cfg, s, which)
    case Wakeup => Resume(s)
    case ClockHigh => s.(memory := Retire(s.memory))
    case ClockLow => s.(compute := Retire(s.compute))
    case Advance(ps) => s.(now := s.now + ps)
  }

  ghost predicate FollowsAt(cfg: Config, states: seq<Pim>, events: seq<Event>, i: nat)
    requires i < |events| && i + 1 < |states|
  {
    Follows(cfg, states[i], events[i], states[i + 1])
  }

  /** The run is a behaviour of the system: each state follows from the one before. */
  ghost predicate Behaviour(cfg: Config, states: seq<Pim>, events: seq<Event>) {
    && |states| == |events| + 1
    && states[0] == INITIAL
    && forall i :: 0 <= i < |events| ==> FollowsAt(cfg, states, events, i)
  }

  predicate Follows(cfg: Config, s: Pim, e: Event, s': Pim) {
    Enabled(s, e) && s' == Step(cfg, s, e)
  }

  // ---------------------------------------------------------------- mutual exclusion

  function CountKind(q: seq<Payload>, kind: Mode): nat {
    if q == [] then 0 else (if q[0].kind == kind then 1 else 0) + CountKind(q[1..], kind)
  }

  lemma {:induction false} CountAppend(q: seq<Payload>, p: Payload, kind: Mode)
    ensures CountKind(q + [p], kind) == CountKind(q, kind) + if p.kind == kind then 1 else 0
  {
    if q == [] {
      assert q + [p] == [p];
    } else {
      assert (q + [p])[1..] == q[1..] + [p];
      CountAppend(q[1..], p, kind);
    }
  }

  lemma {:induction false} CountRemove(q: seq<Payload>, i: nat, kind: Mode)
    requires i < |q|
    ensures CountKind(q, kind) == CountKind(RemoveAt(q, i), kind) + if q[i].kind == kind then 1 else 0
  {
    if i == 0 {
      assert RemoveAt(q, 0) == q[1..];
    } else {
      assert RemoveAt(q, i)[1..] == RemoveAt(q[1..], i - 1);
      CountRemove(q[1..], i - 1, kind);
    }
  }

  ghost predicate Sorted(q: seq<Timed>, last: nat) {
    && (forall i, j :: 0 <= i < j < |q| ==> q[i].time <= q[j].time)
    && (forall i :: 0 <= i < |q| ==> q[i].time <= last)
  }

  /** The counter of a side is the number of its requests that were sent and not yet retired, of
      which the bridge holds `bridged`. */
  ghost predicate SideInv(side: Side, bridged: nat) {
    && side.count == |side.fast| + |side.completed| + bridged
    && (side.busy <==> side.count > 0)
    && Sorted(side.fast, side.available)
  }

  ghost predicate SidesInv(s: Pim) {
    && SideInv(s.memory, CountKind(s.bridge, MEMORY))
    && SideInv(s.compute, CountKind(s.bridge, COMPUTE))
    && (s.memory.busy ==> s.mode.MEMORY?)
    && (s.compute.busy ==> s.mode.COMPUTE?)
  }

  ghost predicate ExclusionInv(s: Pim) {
    && SidesInv(s)
    && (s.thread.ModeWait? ==>
          !s.memory.busy && !s.compute.busy && s.mode != s.thread.payload.kind && s.now <= s.thread.wake)
  }

  lemma CompleteSideKeeps(side: Side, now: nat, bridged: nat)
    requires SideInv(side, bridged)
    ensures SideInv(CompleteSide(side, now), bridged)
  {
    var n := DueCount(side.fast, now);
    forall i, j | 0 <= i < j < |side.fast[n..]|
      ensures side.fast[n..][i].time <= side.fast[n..][j].time
    {
      assert side.fast[n + i].time <= side.fast[n + j].time;
    }
  }

  lemma CompleteFastKeeps(s: Pim)
    requires SidesInv(s)
    ensures SidesInv(CompleteFast(s))
  {
    CompleteSideKeeps(s.memory, s.now, CountKind(s.bridge, MEMORY));
    CompleteSideKeeps(s.compute, s.now, CountKind(s.bridge, COMPUTE));
  }

  /** The bridge hands a request over to the completed ones of its side. */
  lemma HandOverKeepsSide(side: Side, bridged: nat, p: Payload)
    requires SideInv(side, bridged) && bridged > 0
    ensures SideInv(side.(completed := side.completed + [p]), bridged - 1)
  {
  }

  lemma CompleteBridgeKeeps(s: Pim, which: Option<nat>)
    requires which.Some? ==> which.value < |s.bridge|
    requires SidesInv(s)
    ensures SidesInv(CompleteBridge(s, which))
    ensures CompleteBridge(s, which).thread == s.thread && CompleteBridge(s, which).mode == s.mode
  {
    if which.Some? {
      var p := s.bridge[which.value];
      CountRemove(s.bridge, which.value, p.kind);
      CountRemove(s.bridge, which.value, Other(p.kind));
      HandOverKeepsSide(s.At(p.kind), CountKind(s.bridge, p.kind), p);
    }
  }

  lemma CompleteKeepsSides(s: Pim, which: Option<nat>)
    requires which.Some? ==> which.value < |s.bridge|
    requires SidesInv(s)
    ensures var s' := CompleteBridge(CompleteFast(s), which);
            SidesInv(s') && s'.thread == s.thread && s'.mode == s.mode
  {
    CompleteFastKeeps(s);
    CompleteBridgeKeeps(CompleteFast(s), which);
  }

  lemma OccupyKeepsSide(side: Side, now: nat, p: Payload, bridged: nat)
    requires SideInv(side, bridged)
    ensures SideInv(Occupy(side, now, p), if p.isFast then bridged else bridged + 1)
  {
  }

  lemma SendKeepsSides(s: Pim, p: Payload)
    requires SidesInv(s) && s.mode == p.kind
    ensures SidesInv(Send(s, p)) && Send(s, p).thread.Idle?
  {
    CountAppend(s.bridge, p, p.kind);
    CountAppend(s.bridge, p, Other(p.kind));
    OccupyKeepsSide(s.At(p.kind), s.now, p, CountKind(s.bridge, p.kind));
  }

  lemma ProcessKeepsExclusion(cfg: Config, s: Pim)
    requires SidesInv(s) && s.thread.Idle?
    ensures ExclusionInv(ProcessFront(cfg, s))
    ensures ProcessFront(cfg, s).mode == s.mode
  {
    if s.pending != [] && MayProcess(s, s.pending[0]) {
      var popped := s.(pending := s.pending[1..]);
      if s.mode == s.pending[0].kind {
        SendKeepsSides(popped, s.pending[0]);
      }
    }
  }

  lemma StepKeepsExclusion(cfg: Config, s: Pim, e: Event)
    requires ExclusionInv(s) && Enabled(s, e)
    ensures ExclusionInv(Step(cfg, s, e))
    ensures Step(cfg, s, e).mode != s.mode ==> e.Wakeup? && !s.memory.busy && !s.compute.busy
  {
    match e {
      case Iteration(which) =>
        CompleteKeepsSides(s, which);
        ProcessKeepsExclusion(cfg, CompleteBridge(CompleteFast(s), which));
      case Wakeup =>
        SendKeepsSides(s.(mode := s.thread.payload.kind), s.thread.payload);
      case _ =>
    }
  }

  // ---------------------------------------------------------------- single server, first in first out

  /** The side's availability time covers the service, and it is on the completion queue until it
      is over. */
  ghost predicate Covers(side: Side, now: nat, v: Service) {
    v.start <= v.done <= side.available && (v.done <= now || Timed(v.done, v.payload) in side.fast)
  }

  ghost predicate ServicesOk(s: Pim) {
    forall i :: 0 <= i < |s.log.services| ==> Covers(s.At(s.log.services[i].payload.kind), s.now, s.log.services[i])
  }

  /** Service intervals do not overlap and follow one another in the order of the log. */
  ghost predicate Serial(services: seq<Service>) {
    forall i, j :: 0 <= i < j < |services| ==> services[i].done <= services[j].start
  }

  function FastOnly(q: seq<Payload>): seq<Payload> {
    if q == [] then [] else FastOnly(q[..|q| - 1]) + if q[|q| - 1].isFast then [q[|q| - 1]] else []
  }

  function Served(services: seq<Service>): (r: seq<Payload>)
    ensures |r| == |services|
    ensures forall i :: 0 <= i < |services| ==> r[i] == services[i].payload
  {
    seq(|services|, i requires 0 <= i < |services| => services[i].payload)
  }

  /** What has been taken from the pending queue and not yet sent. */
  function InTransit(t: Thread): seq<Payload> {
    if t.Idle? then [] else [t.payload]
  }

  ghost predicate OrderInv(s: Pim, transit: seq<Payload>) {
    && s.log.sent + transit + s.pending == s.log.arrived
    && Served(s.log.services) == FastOnly(s.log.sent)
  }

  ghost predicate FifoInv(s: Pim) {
    OrderInv(s, InTransit(s.thread)) && Serial(s.log.services) && ServicesOk(s)
  }

  lemma StillQueued(q: seq<Timed>, now: nat, t: Timed)
    requires t in q
    ensures t.time <= now || t in q[DueCount(q, now)..]
  {
    var i :| 0 <= i < |q| && q[i] == t;
    var n := DueCount(q, now);
    if i >= n {
      assert q[n..][i - n] == t;
    }
  }

  lemma CompleteKeepsServices(s: Pim, which: Option<nat>)
    requires which.Some? ==> which.value < |s.bridge|
    requires ServicesOk(s)
    ensures ServicesOk(CompleteBridge(CompleteFast(s), which))
  {
    var s' := CompleteBridge(CompleteFast(s), which);
    forall i | 0 <= i < |s'.log.services|
      ensures Covers(s'.At(s'.log.services[i].payload.kind), s'.now, s'.log.services[i])
    {
      var v := s.log.services[i];
      var side := s.At(v.payload.kind);
      assert Covers(side, s.now, v);
      if v.done > s.now {
        StillQueued(side.fast, s.now, Timed(v.done, v.payload));
      }
    }
  }

  /** When the other side has drained, a new service begins after everything before it. */
  lemma NewServiceIsLast(s: Pim, p: Payload)
    requires ServicesOk(s)
    requires SideInv(s.At(Other(p.kind)), CountKind(s.bridge, Other(p.kind))) && !s.At(Other(p.kind)).busy
    ensures forall i :: 0 <= i < |s.log.services| ==> s.log.services[i].done <= StartTime(s.At(p.kind), s.now)
  {
    forall i | 0 <= i < |s.log.services|
      ensures s.log.services[i].done <= StartTime(s.At(p.kind), s.now)
    {
      assert Covers(s.At(s.log.services[i].payload.kind), s.now, s.log.services[i]);
    }
  }

  lemma SendKeepsServices(s: Pim, p: Payload)
    requires ServicesOk(s)
    ensures ServicesOk(Send(s, p))
  {
    var s' := Send(s, p);
    var side, side' := s.At(p.kind), s'.At(p.kind);
    forall i | 0 <= i < |s'.log.services|
      ensures Covers(s'.At(s'.log.services[i].payload.kind), s'.now, s'.log.services[i])
    {
      if i < |s.log.services| {
        assert Covers(s.At(s.log.services[i].payload.kind), s.now, s.log.services[i]);
      } else {
        assert side'.fast[|side.fast|] == Timed(DoneTime(side, s.now, p), p);
      }
    }
  }

  lemma SendKeepsOrder(s: Pim, p: Payload)
    requires OrderInv(s, [p])
    ensures OrderInv(Send(s, p), [])
  {
    var s' := Send(s, p);
    assert s'.log.sent[..|s.log.sent|] == s.log.sent;
    assert s'.log.sent + [] + s'.pending == s.log.sent + [p] + s.pending;
    if p.isFast {
      assert Served(s'.log.services) == Served(s.log.services) + [p];
    }
  }

  lemma SendKeepsSerial(s: Pim, p: Payload)
    requires Serial(s.log.services) && ServicesOk(s)
    requires SideInv(s.At(Other(p.kind)), CountKind(s.bridge, Other(p.kind))) && !s.At(Other(p.kind)).busy
    ensures Serial(Send(s, p).log.services)
  {
    NewServiceIsLast(s, p);
  }

  lemma SendKeepsFifo(s: Pim, p: Payload)
    requires OrderInv(s, [p]) && Serial(s.log.services) && ServicesOk(s)
    requires SideInv(s.At(Other(p.kind)), CountKind(s.bridge, Other(p.kind))) && !s.At(Other(p.kind)).busy
    ensures FifoInv(Send(s, p))
  {
    SendKeepsOrder(s, p);
    SendKeepsSerial(s, p);
    SendKeepsServices(s, p);
  }

  lemma PopKeepsOrder(s: Pim, p: Payload, rest: seq<Payload>)
    requires OrderInv(s, []) && s.pending == [p] + rest
    ensures OrderInv(s.(pending := rest), [p])
  {
    assert s.log.sent + [p] + rest == s.log.sent + [] + s.pending;
  }

  lemma ProcessKeepsFifo(cfg: Config, s: Pim)
    requires SidesInv(s) && FifoInv(s) && s.thread.Idle?
    ensures FifoInv(ProcessFront(cfg, s))
  {
    if s.pending != [] && MayProcess(s, s.pending[0]) {
      var p := s.pending[0];
      var popped := s.(pending := s.pending[1..]);
      PopKeepsOrder(s, p, s.pending[1..]);
      if s.mode == p.kind {
        SendKeepsFifo(popped, p);
      }
    }
  }

  /** Completions leave the order of requests and the log alone. */
  lemma CompleteKeepsFifo(s: Pim, which: Option<nat>)
    requires which.Some? ==> which.value < |s.bridge|
    requires FifoInv(s)
    ensures FifoInv(CompleteBridge(CompleteFast(s), which))
  {
    CompleteKeepsServices(s, which);
    var s' := CompleteBridge(CompleteFast(s), which);
    assert s'.log == s.log && s'.pending == s.pending && s'.thread == s.thread;
  }

  lemma IterationKeepsFifo(cfg: Config, s: Pim, which: Option<nat>)
    requires ExclusionInv(s) && FifoInv(s) && Enabled(s, Iteration(which))
    ensures FifoInv(Step(cfg, s, Iteration(which)))
  {
    CompleteKeepsSides(s, which);
    CompleteKeepsFifo(s, which);
    ProcessKeepsFifo(cfg, CompleteBridge(CompleteFast(s), which));
  }

  lemma StepKeepsFifo(cfg: Config, s: Pim, e: Event)
    requires ExclusionInv(s) && FifoInv(s) && Enabled(s, e)
    ensures FifoInv(Step(cfg, s, e))
  {
    match e {
      case Iteration(which) =>
        IterationKeepsFifo(cfg, s, which);
      case Wakeup =>
        SendKeepsFifo(s.(mode := s.thread.payload.kind), s.thread.payload);
      case Arrival(p) =>
        assert s.log.sent + InTransit(s.thread) + (s.pending + [p]) == (s.log.sent + InTransit(s.thread) + s.pending) + [p];
      case _ =>
    }
  }

  // ---------------------------------------------------------------- all behaviours

  ghost predicate Inv(s: Pim) {
    ExclusionInv(s) && FifoInv(s)
  }

  lemma InitialInv()
    ensures Inv(INITIAL)
  {
  }

  lemma StepKeepsInv(cfg: Config, s: Pim, e: Event, s': Pim)
    requires Inv(s) && Follows(cfg, s, e, s')
    ensures Inv(s')
  {
    StepKeepsExclusion(cfg, s, e);
    StepKeepsFifo(cfg, s, e);
  }

  lemma {:induction false} BehaviourKeepsInv(cfg: Config, states: seq<Pim>, events: seq<Event>, n: nat)
    requires Behaviour(cfg, states, events) && n < |states|
    ensures Inv(states[n])
  {
    if n == 0 {
      InitialInv();
    } else {
      var m := n - 1;
      BehaviourKeepsInv(cfg, states, events, m);
      assert FollowsAt(cfg, states, events, m);
      StepKeepsInv(cfg, states[m], events[m], states[n]);
    }
  }

  /** In every reachable state at most one side is busy, a side is busy exactly when its counter is
      positive, a busy side has the matching mode, and each counter is the number of its requests
      that were sent and not yet retired, so that retiring one never underflows it. */
  lemma MutualExclusion(cfg: Config, states: seq<Pim>, events: seq<Event>, n: nat)
    requires Behaviour(cfg, states, events) && n < |states|
    ensures var s := states[n];
            && !(s.memory.busy && s.compute.busy)
            && (s.memory.busy <==> s.memory.count > 0) && (s.compute.busy <==> s.compute.count > 0)
            && (s.memory.busy ==> s.mode.MEMORY?) && (s.compute.busy ==> s.mode.COMPUTE?)
            && s.memory.count == |s.memory.fast| + |s.memory.completed| + CountKind(s.bridge, MEMORY)
            && s.compute.count == |s.compute.fast| + |s.compute.completed| + CountKind(s.bridge, COMPUTE)
            && Retire(s.memory).count <= s.memory.count && Retire(s.compute).count <= s.compute.count
  {
    BehaviourKeepsInv(cfg, states, events, n);
  }

  /** The mode changes only at the end of a mode-change wait, and both sides are idle then. */
  lemma ModeChangesWhenIdle(cfg: Config, states: seq<Pim>, events: seq<Event>, n: nat)
    requires Behaviour(cfg, states, events) && n + 1 < |states|
    requires states[n + 1].mode != states[n].mode
    ensures events[n].Wakeup?
    ensures !states[n].memory.busy && !states[n].compute.busy
  {
    BehaviourKeepsInv(cfg, states, events, n);
    assert FollowsAt(cfg, states, events, n);
    StepKeepsExclusion(cfg, states[n], events[n]);
  }

  /** The fast requests are served one at a time, in the order in which they arrived: requests are
      sent in arrival order, the service log is the fast part of what was sent, and each service
      ends before the next one starts. */
  lemma SingleServerFifo(cfg: Config, states: seq<Pim>, events: seq<Event>, n: nat)
    requires Behaviour(cfg, states, events) && n < |states|
    ensures var log := states[n].log;
            && log.sent <= log.arrived
            && Served(log.services) == FastOnly(log.sent)
            && forall i, j :: 0 <= i < j < |log.services| ==>
                                log.services[i].start <= log.services[i].done <= log.services[j].start
  {
    BehaviourKeepsInv(cfg, states, events, n);
    var s := states[n];
    assert s.log.arrived[..|s.log.sent|] == s.log.sent;
    forall i, j | 0 <= i < j < |s.log.services|
      ensures s.log.services[i].start <= s.log.services[i].done <= s.log.services[j].start
    {
      assert Covers(s.At(s.log.services[i].payload.kind), s.now, s.log.services[i]);
    }
  }

  /** Completion is prompt: an iteration leaves no due request in a completion queue. */
  lemma NothingDueIsLeft(cfg: Config, states: seq<Pim>, events: seq<Event>, n: nat, kind: Mode)
    requires Behaviour(cfg, states, events) && n < |states|
    ensures forall t :: t in CompleteFast(states[n]).At(kind).fast ==> t.time > states[n].now
  {
    BehaviourKeepsInv(cfg, states, events, n);
    var q := states[n].At(kind).fast;
    var d := DueCount(q, states[n].now);
    assert Sorted(q, states[n].At(kind).available);
    forall t | t in q[d..]
      ensures t.time > states[n].now
    {
      var i :| 0 <= i < |q[d..]| && q[d..][i] == t;
      assert q[d].time <= q[d + i].time;
    }
  }
}
