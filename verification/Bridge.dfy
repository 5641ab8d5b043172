/** The bridge between TLM payloads and the memory system (bridge.cc): who holds each payload.
    The memory system below appears as the transactions it has accepted and not yet reported. */
module Bridge {
  import opened Basics

  datatype Command = READ | WRITE | PIM

  /** For a PIM command the address field carries the delay in nanoseconds. */
  datatype Payload = Payload(id: nat, command: Command, address: nat)

  /** An outstanding transaction of the memory system. */
  datatype Key = Key(addr: nat, isWrite: bool)

  datatype Timed = Timed(time: nat, payload: Payload)

  datatype State = State(
    now: nat,
    incoming: seq<seq<Payload>>,
    readDone: seq<Payload>,
    writeDone: seq<Payload>,
    computeQ: seq<Timed>,
    outgoing: seq<Payload>,
    lastDone: nat,
    below: multiset<Key>,
    sent: seq<Payload>,
    returned: seq<Payload>)

  function InitialState(channels: nat): State {
    State(0, seq(channels, _ => []), [], [], [], [], 0, multiset{}, [], [])
  }

  // ---------------------------------------------------------------- the callback loop

  /** What a callback takes from a done list: the loop erases a match and then skips the element
      that has moved into its place. */
  function Taken(q: seq<Payload>, addr: nat): seq<Payload> {
    if q == [] then []
    else if q[0].address == addr then [q[0]] + (if |q| == 1 then [] else Taken(q[2..], addr))
    else Taken(q[1..], addr)
  }

  function Kept(q: seq<Payload>, addr: nat): seq<Payload> {
    if q == [] then []
    else if q[0].address == addr then (if |q| == 1 then [] else [q[1]] + Kept(q[2..], addr))
    else [q[0]] + Kept(q[1..], addr)
  }

  function CountAddr(q: seq<Payload>, addr: nat): nat {
    if q == [] then 0 else (if q[0].address == addr then 1 else 0) + CountAddr(q[1..], addr)
  }

  /** Nothing is lost, and nothing but matches is taken. */
  lemma {:induction false} SweepConserves(q: seq<Payload>, addr: nat)
    ensures multiset(Taken(q, addr)) + multiset(Kept(q, addr)) == multiset(q)
    ensures forall p :: p in Taken(q, addr) ==> p.address == addr
    decreases |q|
  {
    if q != [] {
      assert q == [q[0]] + q[1..];
      if q[0].address == addr {
        if |q| > 1 {
          assert q == [q[0]] + [q[1]] + q[2..];
          SweepConserves(q[2..], addr);
        }
      } else {
        SweepConserves(q[1..], addr);
      }
    }
  }

  /** A callback removes at least one match if there is one, and never touches other addresses. */
  lemma {:induction false} SweepCounts(q: seq<Payload>, addr: nat, a: nat)
    ensures a != addr ==> CountAddr(Kept(q, addr), a) == CountAddr(q, a)
    ensures CountAddr(Kept(q, addr), addr) <= if CountAddr(q, addr) == 0 then 0 else CountAddr(q, addr) - 1
    decreases |q|
  {
    if q != [] {
      if q[0].address == addr {
        if |q| > 1 {
          assert q[1..][1..] == q[2..];
          SweepCounts(q[2..], addr, a);
          assert ([q[1]] + Kept(q[2..], addr))[1..] == Kept(q[2..], addr);
        }
      } else {
        SweepCounts(q[1..], addr, a);
        assert ([q[0]] + Kept(q[1..], addr))[1..] == Kept(q[1..], addr);
      }
    }
  }

  // ---------------------------------------------------------------- steps

  /** ReadCallBack and WriteCallBack */
  function Callback(s: State, key: Key): State {
    var q := if key.isWrite then s.writeDone else s.readDone;
    var swept := s.(outgoing := s.outgoing + Taken(q, key.addr), below := s.below - multiset{key});
    if key.isWrite then swept.(writeDone := Kept(q, key.addr)) else swept.(readDone := Kept(q, key.addr))
  }

  /** sendCommand; `channel` is the channel that the address maps to. */
  function Send(s: State, p: Payload, channel: nat): State
    requires channel < |s.incoming|
  {
    var logged := s.(sent := s.sent + [p]);
    if p.command.PIM? then
      var start := if s.now >= s.lastDone then s.now else s.lastDone;
      var done := start + p.address * 1000 + 500;
      logged.(computeQ := s.computeQ + [Timed(done, p)], lastDone := done)
    else logged.(incoming := s.incoming[channel := s.incoming[channel] + [p]])
  }

  /** The memory system accepts the front of a channel's queue. */
  function Accept(s: State, channel: nat): State
    requires channel < |s.incoming| && s.incoming[channel] != []
  {
    var p := s.incoming[channel][0];
    var popped := s.(incoming := s.incoming[channel := s.incoming[channel][1..]], below := s.below + multiset{Key(p.address, p.command.WRITE?)});
    if p.command.WRITE? then popped.(writeDone := s.writeDone + [p]) else popped.(readDone := s.readDone + [p])
  }

  /** One turn of the compute-completion loop. */
  function FinishCompute(s: State): State
    requires s.computeQ != []
  {
    s.(outgoing := s.outgoing + [s.computeQ[0].payload], computeQ := s.computeQ[1..])
  }

  /** getCompletedCommand */
  function GetCompleted(s: State): State {
    if s.outgoing == [] then s
    else s.(outgoing := s.outgoing[1..], returned := s.returned + [s.outgoing[0]])
  }

  datatype Event =
    | Sending(payload: Payload, channel: nat)
    | Reporting(key: Key)
    | Accepting(channel: nat)
    | Computing
    | Fetching
    | Advancing(ps: nat)

  /** The memory system reports only what it has accepted (each transaction once); a compute
      command ends when its time has come. */
  predicate Enabled(s: State, e: Event) {
    match e
    case Sending(_, channel) => channel < |s.incoming|
    case Reporting(key) => key in s.below
    case Accepting(channel) => channel < |s.incoming| && s.incoming[channel] != []
    case Computing => s.computeQ != [] && s.computeQ[0].time <= s.now
    case Fetching => true
    case Advancing(_) => true
  }

  function Step(s: State, e: Event): State
    requires Enabled(s, e)
  {
    match e
    case Sending(p, channel) => Send(s, p, channel)
    case Reporting(key) => Callback(s, key)
    case Accepting(channel) => Accept(s, channel)
    case Computing => FinishCompute(s)
    case Fetching => GetCompleted(s)
    case Advancing(ps) => s.(now := s.now + ps)
  }

  // ---------------------------------------------------------------- conservation

  function InQueues(qs: seq<seq<Payload>>, p: Payload): nat {
    if qs == [] then 0 else multiset(qs[0])[p] + InQueues(qs[1..], p)
  }

  function InCompute(q: seq<Timed>, p: Payload): nat {
    if q == [] then 0 else (if q[0].payload == p then 1 else 0) + InCompute(q[1..], p)
  }

  /** How often the bridge holds a payload. */
  function Held(s: State, p: Payload): nat {
    InQueues(s.incoming, p) + multiset(s.readDone)[p] + multiset(s.writeDone)[p] + InCompute(s.computeQ, p) + multiset(s.outgoing)[p]
  }

  lemma {:induction false} InQueuesUpdate(qs: seq<seq<Payload>>, i: nat, q: seq<Payload>, p: Payload)
    requires i < |qs|
    ensures InQueues(qs[i := q], p) + multiset(qs[i])[p] == InQueues(qs, p) + multiset(q)[p]
  {
    if i == 0 {
      assert qs[0 := q][1..] == qs[1..];
    } else {
      assert qs[i := q][1..] == qs[1..][i - 1 := q];
      InQueuesUpdate(qs[1..], i - 1, q, p);
    }
  }

  lemma {:induction false} InComputeLast(q: seq<Timed>, t: Timed, p: Payload)
    ensures InCompute(q + [t], p) == InCompute(q, p) + if t.payload == p then 1 else 0
  {
    if q == [] {
      assert q + [t] == [t];
    } else {
      assert (q + [t])[1..] == q[1..] + [t];
      InComputeLast(q[1..], t, p);
    }
  }

  lemma {:induction false} CountAddrLast(q: seq<Payload>, p: Payload, a: nat)
    ensures CountAddr(q + [p], a) == CountAddr(q, a) + if p.address == a then 1 else 0
  {
    if q == [] {
      assert q + [p] == [p];
    } else {
      assert (q + [p])[1..] == q[1..] + [p];
      CountAddrLast(q[1..], p, a);
    }
  }

  /** A payload that was sent is held or has been handed back, as often as it was sent. */
  ghost predicate Conserved(s: State, p: Payload) {
    Held(s, p) + multiset(s.returned)[p] == multiset(s.sent)[p]
  }

  /** No done list holds more payloads of an address than transactions of it are outstanding. */
  ghost predicate Covered(s: State) {
    forall a: nat :: CoveredAt(s, a)
  }

  lemma SendConserves(s: State, p: Payload, channel: nat, x: Payload)
    requires channel < |s.incoming| && Conserved(s, x)
    ensures Conserved(Send(s, p, channel), x)
  {
    InComputeLast(s.computeQ, Timed(Send(s, p, channel).lastDone, p), x);
    InQueuesUpdate(s.incoming, channel, s.incoming[channel] + [p], x);
  }

  lemma CallbackConserves(s: State, key: Key, x: Payload)
    requires Conserved(s, x)
    ensures Conserved(Callback(s, key), x)
  {
    var q := if key.isWrite then s.writeDone else s.readDone;
    SweepConserves(q, key.addr);
    assert multiset(q)[x] == multiset(Taken(q, key.addr))[x] + multiset(Kept(q, key.addr))[x];
    assert multiset(s.outgoing + Taken(q, key.addr))[x] == multiset(s.outgoing)[x] + multiset(Taken(q, key.addr))[x];
  }

  lemma AcceptConserves(s: State, channel: nat, x: Payload)
    requires channel < |s.incoming| && s.incoming[channel] != [] && Conserved(s, x)
    ensures Conserved(Accept(s, channel), x)
  {
    var q := s.incoming[channel];
    assert q == [q[0]] + q[1..];
    InQueuesUpdate(s.incoming, channel, q[1..], x);
  }

  lemma StepConserves(s: State, e: Event, x: Payload)
    requires Enabled(s, e) && Conserved(s, x)
    ensures Conserved(Step(s, e), x)
  {
    match e {
      case Sending(p, channel) => SendConserves(s, p, channel, x);
      case Reporting(key) => CallbackConserves(s, key, x);
      case Accepting(channel) => AcceptConserves(s, channel, x);
      case Computing =>
      case Fetching =>
        if s.outgoing != [] {
          assert s.outgoing == [s.outgoing[0]] + s.outgoing[1..];
        }
      case Advancing(_) =>
    }
  }

  ghost predicate CoveredAt(s: State, a: nat) {
    CountAddr(s.readDone, a) <= s.below[Key(a, false)] && CountAddr(s.writeDone, a) <= s.below[Key(a, true)]
  }

  lemma CallbackCovers(s: State, key: Key, a: nat)
    requires key in s.below && CoveredAt(s, a)
    ensures CoveredAt(Callback(s, key), a)
  {
    SweepCounts(if key.isWrite then s.writeDone else s.readDone, key.addr, a);
  }

  lemma AcceptCovers(s: State, channel: nat, a: nat)
    requires channel < |s.incoming| && s.incoming[channel] != [] && CoveredAt(s, a)
    ensures CoveredAt(Accept(s, channel), a)
  {
    var p := s.incoming[channel][0];
    CountAddrLast(s.readDone, p, a);
    CountAddrLast(s.writeDone, p, a);
  }

  lemma StepCovers(s: State, e: Event)
    requires Enabled(s, e) && Covered(s)
    ensures Covered(Step(s, e))
  {
    forall a: nat
      ensures CoveredAt(Step(s, e), a)
    {
      assert CoveredAt(s, a);
      match e {
        case Reporting(key) => CallbackCovers(s, key, a);
        case Accepting(channel) => AcceptCovers(s, channel, a);
        case _ =>
      }
    }
  }

  // ---------------------------------------------------------------- all behaviours

  predicate Follows(s: State, e: Event, s': State) {
    Enabled(s, e) && s' == Step(s, e)
  }

  ghost predicate FollowsAt(states: seq<State>, events: seq<Event>, i: nat)
    requires i < |events| && i + 1 < |states|
  {
    Follows(states[i], events[i], states[i + 1])
  }

  ghost predicate Behaviour(channels: nat, states: seq<State>, events: seq<Event>) {
    && |states| == |events| + 1
    && states[0] == InitialState(channels)
    && forall i :: 0 <= i < |events| ==> FollowsAt(states, events, i)
  }

  lemma {:induction false} InitialHoldsNothing(n: nat, p: Payload)
    ensures InQueues(seq<seq<Payload>>(n, _ => []), p) == 0
  {
    if n > 0 {
      assert seq<seq<Payload>>(n, _ => [])[1..] == seq<seq<Payload>>(n - 1, _ => []);
      InitialHoldsNothing(n - 1, p);
    }
  }

  lemma {:induction false} BehaviourKeeps(channels: nat, states: seq<State>, events: seq<Event>, n: nat, p: Payload)
    requires Behaviour(channels, states, events) && n < |states|
    ensures Conserved(states[n], p) && Covered(states[n])
  {
    if n == 0 {
      InitialHoldsNothing(channels, p);
    } else {
      var m := n - 1;
      BehaviourKeeps(channels, states, events, m, p);
      assert FollowsAt(states, events, m);
      StepConserves(states[m], events[m], p);
      StepCovers(states[m], events[m]);
    }
  }

  /** A payload that has been sent once is always in exactly one place: in one of the bridge's
      queues, or handed back. */
  lemma ExactlyOnePlace(channels: nat, states: seq<State>, events: seq<Event>, n: nat, p: Payload)
    requires Behaviour(channels, states, events) && n < |states|
    ensures Held(states[n], p) + multiset(states[n].returned)[p] == multiset(states[n].sent)[p]
  {
    BehaviourKeeps(channels, states, events, n, p);
  }

  /** When the memory system has no transaction of an address outstanding, no payload of that
      address is left in the done list. */
  lemma NothingLeftBehind(channels: nat, states: seq<State>, events: seq<Event>, n: nat, a: nat, isWrite: bool)
    requires Behaviour(channels, states, events) && n < |states|
    requires Key(a, isWrite) !in states[n].below
    ensures forall p :: p in (if isWrite then states[n].writeDone else states[n].readDone) ==> p.address != a
  {
    BehaviourKeeps(channels, states, events, n, Payload(0, READ, a));
    var q := if isWrite then states[n].writeDone else states[n].readDone;
    assert CoveredAt(states[n], a);
    CountAddrMember(q, a);
  }

  lemma {:induction false} CountAddrMember(q: seq<Payload>, a: nat)
    ensures CountAddr(q, a) == 0 <==> forall p :: p in q ==> p.address != a
  {
    if q != [] {
      assert q == [q[0]] + q[1..];
      CountAddrMember(q[1..], a);
    }
  }

  /** How far the callback loop has come: `kept` and `taken` are decided, `rest` is not. */
  ghost predicate Swept(list: seq<Payload>, addr: nat, kept: seq<Payload>, rest: seq<Payload>, taken: seq<Payload>) {
    kept + Kept(rest, addr) == Kept(list, addr) && taken + Taken(rest, addr) == Taken(list, addr)
  }

  lemma SweepMatch(list: seq<Payload>, addr: nat, kept: seq<Payload>, rest: seq<Payload>, taken: seq<Payload>)
    requires Swept(list, addr, kept, rest, taken) && rest != [] && rest[0].address == addr
    ensures if |rest| > 1 then Swept(list, addr, kept + [rest[1]], rest[2..], taken + [rest[0]])
            else Swept(list, addr, kept, [], taken + [rest[0]])
  {
  }

  lemma SweepOther(list: seq<Payload>, addr: nat, kept: seq<Payload>, rest: seq<Payload>, taken: seq<Payload>)
    requires Swept(list, addr, kept, rest, taken) && rest != [] && rest[0].address != addr
    ensures Swept(list, addr, kept + [rest[0]], rest[1..], taken)
  {
  }

  // ---------------------------------------------------------------- the class

  class BridgeObject {
    var now: nat
    var incomingQueue: seq<seq<Payload>>
    var readDone: seq<Payload>
    var writeDone: seq<Payload>
    var pimComputeQueue: seq<Timed>
    var outgoingQueue: seq<Payload>
    var lastComputeDoneTime: nat
    ghost var below: multiset<Key>
    ghost var sent: seq<Payload>
    ghost var returned: seq<Payload>

    ghost function Abs(): State
      reads this
    {
      State(now, incomingQueue, readDone, writeDone, pimComputeQueue, outgoingQueue, lastComputeDoneTime, below, sent, returned)
    }

    constructor (channels: nat)
      ensures Abs() == InitialState(channels)
    {
      now := 0;
      incomingQueue := seq(channels, _ => []);
      readDone, writeDone, pimComputeQueue, outgoingQueue := [], [], [], [];
      lastComputeDoneTime := 0;
      below, sent, returned := multiset{}, [], [];
    }

    method ReadCallBack(addr: nat)
      modifies this
      ensures Abs() == Callback(old(Abs()), Key(addr, false))
    {
      var kept, taken := Sweep(readDone, addr);
      readDone := kept;
      outgoingQueue := outgoingQueue + taken;
      below := below - multiset{Key(addr, false)};
    }

    method WriteCallBack(addr: nat)
      modifies this
      ensures Abs() == Callback(old(Abs()), Key(addr, true))
    {
      var kept, taken := Sweep(writeDone, addr);
      writeDone := kept;
      outgoingQueue := outgoingQueue + taken;
      below := below - multiset{Key(addr, true)};
    }

    /** The loop of both callbacks, with its index that moves on after an erase. */
    static method Sweep(list: seq<Payload>, addr: nat) returns (q: seq<Payload>, taken: seq<Payload>)
      ensures q == Kept(list, addr) && taken == Taken(list, addr)
    {
      q, taken := list, [];
      ghost var kept, rest := [], list;
      var i := 0;
      while i < |q|
        invariant 0 <= i
        invariant Swept(list, addr, kept, rest, taken)
        invariant if i <= |q| then |kept| == i && q == kept + rest else rest == [] && q == kept
        decreases |q| - i
      {
        assert q[i] == rest[0];
        if q[i].address == addr {
          SweepMatch(list, addr, kept, rest, taken);
          taken := taken + [q[i]];
          q := q[..i] + q[i + 1..];
          assert q == kept + rest[1..];
          if |rest| > 1 {
            assert rest[1..] == [rest[1]] + rest[2..];
            kept, rest := kept + [rest[1]], rest[2..];
          } else {
            rest := [];
          }
        } else {
          SweepOther(list, addr, kept, rest, taken);
          assert rest == [rest[0]] + rest[1..];
          kept, rest := kept + [rest[0]], rest[1..];
        }
        i := i + 1;
      }
    }

    method SendCommand(p: Payload, channel: nat)
      requires channel < |incomingQueue|
      modifies this
      ensures Abs() == Send(old(Abs()), p, channel)
    {
      sent := sent + [p];
      if p.command.PIM? {
        var start := if now >= lastComputeDoneTime then now else lastComputeDoneTime;
        var done := start + p.address * 1000 + 500;
        pimComputeQueue := pimComputeQueue + [Timed(done, p)];
        lastComputeDoneTime := done;
      } else {
        incomingQueue := incomingQueue[channel := incomingQueue[channel] + [p]];
      }
    }

    method GetCompletedCommand() returns (r: Option<Payload>)
      modifies this
      ensures Abs() == GetCompleted(old(Abs()))
      ensures r == if old(outgoingQueue) == [] then None else Some(old(outgoingQueue)[0])
    {
      if outgoingQueue == [] {
        return None;
      }
      r := Some(outgoingQueue[0]);
      returned := returned + [outgoingQueue[0]];
      outgoingQueue := outgoingQueue[1..];
    }

    /** ClockTick: the memory system ticks and reports finished transactions, then takes new ones,
        then compute commands complete. */
    method ClockTick(reports: seq<Key>, accepts: seq<bool>)
      requires |accepts| == |incomingQueue|
      modifies this
      ensures Abs() == Tick(old(Abs()), reports, accepts)
    {
      for i := 0 to |reports|
        invariant |incomingQueue| == |accepts|
        invariant Abs() == ReportAll(old(Abs()), reports, i)
      {
        if reports[i].isWrite {
          WriteCallBack(reports[i].addr);
        } else {
          ReadCallBack(reports[i].addr);
        }
      }
      OfferIncoming(accepts);
      CompleteCompute();
    }

    /** The second part of ClockTick, after the memory system has ticked: each channel offers its
        front payload, and `accepts` says where the memory system takes it. */
    method OfferIncoming(accepts: seq<bool>)
      requires |accepts| == |incomingQueue|
      modifies this
      ensures Abs() == AcceptAll(old(Abs()), accepts, |accepts|)
    {
      for c := 0 to |accepts|
        invariant |incomingQueue| == |accepts|
        invariant Abs() == AcceptAll(old(Abs()), accepts, c)
      {
        if |incomingQueue[c]| > 0 && accepts[c] {
          AcceptFront(c);
        }
      }
    }

    method AcceptFront(c: nat)
      requires c < |incomingQueue| && incomingQueue[c] != []
      modifies this
      ensures Abs() == Accept(old(Abs()), c)
    {
      var p := incomingQueue[c][0];
      incomingQueue := incomingQueue[c := incomingQueue[c][1..]];
      below := below + multiset{Key(p.address, p.command.WRITE?)};
      if p.command.WRITE? {
        writeDone := writeDone + [p];
      } else {
        readDone := readDone + [p];
      }
    }

    /** The last part of ClockTick. */
    method CompleteCompute()
      modifies this
      ensures Abs() == ComputeAll(old(Abs()))
    {
      while pimComputeQueue != [] && pimComputeQueue[0].time <= now
        invariant ComputeAll(Abs()) == ComputeAll(old(Abs()))
        decreases |pimComputeQueue|
      {
        outgoingQueue := outgoingQueue + [pimComputeQueue[0].payload];
        pimComputeQueue := pimComputeQueue[1..];
      }
    }
  }

  /** A channel offers its front payload, if it has one. */
  function Offer(s: State, channel: nat, accepted: bool): (r: State)
    requires channel < |s.incoming|
    ensures |r.incoming| == |s.incoming|
  {
    if accepted && s.incoming[channel] != [] then Accept(s, channel) else s
  }

  /** The effect of the accept loop on the first `n` channels. */
  function AcceptAll(s: State, accepts: seq<bool>, n: nat): (r: State)
    requires |accepts| == |s.incoming| && n <= |accepts|
    ensures |r.incoming| == |s.incoming|
  {
    if n == 0 then s
    else
      Offer(AcceptAll(s, accepts, n - 1), n - 1, accepts[n - 1])
  }

  function ComputeAll(s: State): State
    decreases |s.computeQ|
  {
    if s.computeQ != [] && s.computeQ[0].time <= s.now then ComputeAll(FinishCompute(s)) else s
  }

  /** The callbacks of the first `n` reports. */
  function ReportAll(s: State, reports: seq<Key>, n: nat): (r: State)
    requires n <= |reports|
    ensures |r.incoming| == |s.incoming|
  {
    if n == 0 then s else Callback(ReportAll(s, reports, n - 1), reports[n - 1])
  }

  function Tick(s: State, reports: seq<Key>, accepts: seq<bool>): State
    requires |accepts| == |s.incoming|
  {
    ComputeAll(AcceptAll(ReportAll(s, reports, |reports|), accepts, |accepts|))
  }

  ghost predicate Sound(s: State, p: Payload) {
    Conserved(s, p) && Covered(s)
  }

  /** A whole tick keeps both invariants, provided the memory system reports each transaction it
      holds at most once. */
  lemma TickKeeps(s: State, reports: seq<Key>, accepts: seq<bool>, p: Payload)
    requires |accepts| == |s.incoming| && multiset(reports) <= s.below && Sound(s, p)
    ensures Sound(Tick(s, reports, accepts), p)
  {
    assert reports[..|reports|] == reports;
    ReportAllKeeps(s, reports, |reports|, p);
    var reported := ReportAll(s, reports, |reports|);
    AcceptAllKeeps(reported, accepts, |accepts|, p);
    ComputeAllKeeps(AcceptAll(reported, accepts, |accepts|), p);
  }

  lemma {:induction false} ReportAllBelow(s: State, reports: seq<Key>, n: nat)
    requires n <= |reports|
    ensures ReportAll(s, reports, n).below == s.below - multiset(reports[..n])
    decreases n
  {
    if n > 0 {
      assert reports[..n] == reports[..n - 1] + [reports[n - 1]];
      ReportAllBelow(s, reports, n - 1);
    }
  }

  lemma CallbackKeeps(s: State, key: Key, p: Payload)
    requires Sound(s, p) && key in s.below
    ensures Sound(Callback(s, key), p)
  {
    StepConserves(s, Reporting(key), p);
    StepCovers(s, Reporting(key));
  }

  lemma {:induction false} ReportAllKeeps(s: State, reports: seq<Key>, n: nat, p: Payload)
    requires n <= |reports| && multiset(reports[..n]) <= s.below && Sound(s, p)
    ensures Sound(ReportAll(s, reports, n), p)
    decreases n
  {
    if n > 0 {
      assert reports[..n] == reports[..n - 1] + [reports[n - 1]];
      ReportAllKeeps(s, reports, n - 1, p);
      ReportAllBelow(s, reports, n - 1);
      CallbackKeeps(ReportAll(s, reports, n - 1), reports[n - 1], p);
    }
  }

  lemma OfferKeeps(s: State, channel: nat, accepted: bool, p: Payload)
    requires channel < |s.incoming| && Sound(s, p)
    ensures Sound(Offer(s, channel, accepted), p)
  {
    if accepted && s.incoming[channel] != [] {
      StepConserves(s, Accepting(channel), p);
      StepCovers(s, Accepting(channel));
    }
  }

  lemma {:induction false} AcceptAllKeeps(s: State, accepts: seq<bool>, n: nat, p: Payload)
    requires |accepts| == |s.incoming| && n <= |accepts| && Sound(s, p)
    ensures Sound(AcceptAll(s, accepts, n), p)
    decreases n
  {
    if n > 0 {
      AcceptAllKeeps(s, accepts, n - 1, p);
      OfferKeeps(AcceptAll(s, accepts, n - 1), n - 1, accepts[n - 1], p);
    }
  }

  lemma {:induction false} ComputeAllKeeps(s: State, p: Payload)
    requires Sound(s, p)
    ensures Sound(ComputeAll(s), p)
    decreases |s.computeQ|
  {
    if s.computeQ != [] && s.computeQ[0].time <= s.now {
      StepConserves(s, Computing, p);
      StepCovers(s, Computing);
      ComputeAllKeeps(FinishCompute(s), p);
    }
  }
}
