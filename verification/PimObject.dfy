/** The PIM wrapper as an object: each method is the code of one process between two waits, and is
    proved to be the corresponding step. */
module PimObject {
  import opened Basics
  import opened Pim

  class PimWrapper {
    const cfg: Config
    var now: nat
    var pendingQueue: seq<Payload>
    var bridge: seq<Payload>
    var memoryCompletedQueue: seq<Payload>
    var computeCompletedQueue: seq<Payload>
    var fastMemoryQueue: seq<Timed>
    var fastComputeQueue: seq<Timed>
    var fastMemoryAvailable: nat
    var fastComputeAvailable: nat
    var mode: Mode
    var modeChangeCount: nat
    var memoryBusy: bool
    var computeBusy: bool
    var memoryBusyCount: nat
    var computeBusyCount: nat
    var thread: Thread
    ghost var log: Log

    ghost function Abs(): Pim
      reads this
    {
      Pim(
        now,
        pendingQueue,
        bridge,
        Side(fastMemoryQueue, memoryCompletedQueue, fastMemoryAvailable, memoryBusy, memoryBusyCount),
        Side(fastComputeQueue, computeCompletedQueue, fastComputeAvailable, computeBusy, computeBusyCount),
        mode,
        modeChangeCount,
        thread,
        log)
    }

    constructor (cfg: Config)
      ensures this.cfg == cfg && Abs() == INITIAL
    {
      this.cfg := cfg;
      now := 0;
      pendingQueue, bridge, memoryCompletedQueue, computeCompletedQueue := [], [], [], [];
      fastMemoryQueue, fastComputeQueue := [], [];
      fastMemoryAvailable, fastComputeAvailable := 0, 0;
      mode, modeChangeCount := MEMORY, 0;
      memoryBusy, computeBusy, memoryBusyCount, computeBusyCount := false, false, 0, 0;
      thread := Idle;
      log := Log([], [], []);
    }

    /** peq_cb */
    method PeqCb(p: Payload)
      modifies this
      ensures Abs() == Step(cfg, old(Abs()), Arrival(p))
    {
      pendingQueue := pendingQueue + [p];
      log := log.(arrived := log.arrived + [p]);
    }

    static lemma DueExactly(q: seq<Timed>, now: nat, n: nat)
      requires n <= |q| && (forall j :: 0 <= j < n ==> q[j].time <= now) && (n < |q| ==> q[n].time > now)
      ensures DueCount(q, now) == n
      decreases n
    {
    }

    method CompleteFastMemoryRequests()
      modifies this`fastMemoryQueue, this`memoryCompletedQueue
      ensures Abs() == old(Abs()).(memory := CompleteSide(old(Abs()).memory, now))
    {
      ghost var q := fastMemoryQueue;
      ghost var i := 0;
      while fastMemoryQueue != [] && fastMemoryQueue[0].time <= now
        invariant 0 <= i <= |q| && fastMemoryQueue == q[i..]
        invariant memoryCompletedQueue == old(memoryCompletedQueue) + Payloads(q[..i])
        invariant forall j :: 0 <= j < i ==> q[j].time <= now
        decreases |fastMemoryQueue|
      {
        assert Payloads(q[..i + 1]) == Payloads(q[..i]) + [q[i].payload];
        memoryCompletedQueue := memoryCompletedQueue + [fastMemoryQueue[0].payload];
        fastMemoryQueue := fastMemoryQueue[1..];
        i := i + 1;
      }
      DueExactly(q, now, i);
    }

    method CompleteFastComputeRequests()
      modifies this`fastComputeQueue, this`computeCompletedQueue
      ensures Abs() == old(Abs()).(compute := CompleteSide(old(Abs()).compute, now))
    {
      ghost var q := fastComputeQueue;
      ghost var i := 0;
      while fastComputeQueue != [] && fastComputeQueue[0].time <= now
        invariant 0 <= i <= |q| && fastComputeQueue == q[i..]
        invariant computeCompletedQueue == old(computeCompletedQueue) + Payloads(q[..i])
        invariant forall j :: 0 <= j < i ==> q[j].time <= now
        decreases |fastComputeQueue|
      {
        assert Payloads(q[..i + 1]) == Payloads(q[..i]) + [q[i].payload];
        computeCompletedQueue := computeCompletedQueue + [fastComputeQueue[0].payload];
        fastComputeQueue := fastComputeQueue[1..];
        i := i + 1;
      }
      DueExactly(q, now, i);
    }

    /** simulate_unified_pim: one iteration, up to the next wait. `which` is the request that the
        bridge hands back. */
    method Iteration(which: Option<nat>)
      requires Enabled(Abs(), Event.Iteration(which))
      modifies this
      ensures Abs() == Step(cfg, old(Abs()), Event.Iteration(which))
    {
      CompleteFastMemoryRequests();
      CompleteFastComputeRequests();
      assert Abs() == CompleteFast(old(Abs()));
      if which.Some? {
        var p := bridge[which.value];
        bridge := bridge[..which.value] + bridge[which.value + 1..];
        if p.kind.COMPUTE? {
          computeCompletedQueue := computeCompletedQueue + [p];
        } else {
          memoryCompletedQueue := memoryCompletedQueue + [p];
        }
      }
      assert Abs() == CompleteBridge(CompleteFast(old(Abs())), which);
      ProcessPending();
    }

    method ProcessPending()
      modifies this
      ensures Abs() == ProcessFront(cfg, old(Abs()))
    {
      if pendingQueue != [] {
        var p := pendingQueue[0];
        var process := if p.kind.COMPUTE? then !memoryBusy else !computeBusy;
        if process {
          pendingQueue := pendingQueue[1..];
          if mode != p.kind {
            modeChangeCount := modeChangeCount + 1;
            var delay := if p.kind.MEMORY? then cfg.toMemoryDelayNs else cfg.toComputeDelayNs;
            thread := ModeWait(p, now + delay * 1000);
          } else {
            FinishSend(p);
          }
        }
      }
    }

    /** The thread wakes up from the wait of process_mode_transition. */
    method Wakeup()
      requires Enabled(Abs(), Event.Wakeup)
      modifies this
      ensures Abs() == Step(cfg, old(Abs()), Event.Wakeup)
    {
      var p := thread.payload;
      mode := p.kind;
      FinishSend(p);
    }

    /** send_transaction after the mode transition. */
    method FinishSend(p: Payload)
      modifies this
      ensures Abs() == Send(old(Abs()), p)
    {
      if p.kind.COMPUTE? {
        SendCompute(p);
      } else {
        SendMemory(p);
      }
    }

    /** The busy flag and counter of the compute side, and its reservation for a macro. */
    method OccupyCompute(p: Payload) returns (start: nat)
      requires p.kind.COMPUTE?
      modifies this`computeBusy, this`computeBusyCount, this`fastComputeQueue, this`fastComputeAvailable
      ensures Abs() == old(Abs()).(compute := Occupy(old(Abs()).compute, now, p))
      ensures start == StartTime(old(Abs()).compute, now)
    {
      computeBusy := true;
      computeBusyCount := computeBusyCount + 1;
      start := Max(now, fastComputeAvailable);
      if p.isFast {
        var done := start + p.durationNs * 1000 + 500;
        fastComputeQueue := fastComputeQueue + [Timed(done, p)];
        fastComputeAvailable := done;
      }
    }

    method OccupyMemory(p: Payload) returns (start: nat)
      requires p.kind.MEMORY?
      modifies this`memoryBusy, this`memoryBusyCount, this`fastMemoryQueue, this`fastMemoryAvailable
      ensures Abs() == old(Abs()).(memory := Occupy(old(Abs()).memory, now, p))
      ensures start == StartTime(old(Abs()).memory, now)
    {
      memoryBusy := true;
      memoryBusyCount := memoryBusyCount + 1;
      start := Max(now, fastMemoryAvailable);
      if p.isFast {
        var done := start + p.durationNs * 1000;
        fastMemoryAvailable := done;
        fastMemoryQueue := fastMemoryQueue + [Timed(done, p)];
      }
    }

    /** A request that is not fast goes to the bridge; the log records what was sent. */
    method HandOver(p: Payload, ghost service: Service)
      modifies this`thread, this`bridge, this`log
      ensures Abs() == old(Abs()).(
                       thread := Idle,
                       bridge := if p.isFast then old(bridge) else old(bridge) + [p],
                       log := old(log).(
                       sent := old(log).sent + [p],
                       services := if p.isFast then old(log).services + [service] else old(log).services))
    {
      thread := Idle;
      if !p.isFast {
        bridge := bridge + [p];
      }
      log := log.(sent := log.sent + [p], services := if p.isFast then log.services + [service] else log.services);
    }

    method SendCompute(p: Payload)
      requires p.kind.COMPUTE?
      modifies this
      ensures Abs() == Send(old(Abs()), p)
    {
      ghost var before := Abs();
      var start := OccupyCompute(p);
      HandOver(p, Service(p, now, start, DoneTime(before.compute, now, p)));
    }

    method SendMemory(p: Payload)
      requires p.kind.MEMORY?
      modifies this
      ensures Abs() == Send(old(Abs()), p)
    {
      ghost var before := Abs();
      var start := OccupyMemory(p);
      HandOver(p, Service(p, now, start, DoneTime(before.memory, now, p)));
    }

    method ClockPosedge()
      modifies this
      ensures Abs() == Step(cfg, old(Abs()), ClockHigh)
    {
      if memoryCompletedQueue == [] {
        return;
      }
      memoryCompletedQueue := memoryCompletedQueue[1..];
      memoryBusyCount := Decrement(memoryBusyCount);
      if memoryBusyCount == 0 {
        memoryBusy := false;
      }
    }

    method ClockNegedge()
      modifies this
      ensures Abs() == Step(cfg, old(Abs()), ClockLow)
    {
      if computeCompletedQueue == [] {
        return;
      }
      computeCompletedQueue := computeCompletedQueue[1..];
      computeBusyCount := Decrement(computeBusyCount);
      if computeBusyCount == 0 {
        computeBusy := false;
      }
    }
  }
}
