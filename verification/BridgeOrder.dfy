/** The bridge hands PIM compute commands back in the order in which it got them. */
module BridgeOrder {
  import opened Basics
  import opened Bridge

  function Pims(q: seq<Payload>): seq<Payload> {
    if q == [] then [] else Pims(q[..|q| - 1]) + if q[|q| - 1].command.PIM? then [q[|q| - 1]] else []
  }

  function Timeless(q: seq<Timed>): (r: seq<Payload>)
    ensures |r| == |q|
    ensures forall i :: 0 <= i < |q| ==> r[i] == q[i].payload
  {
    seq(|q|, i requires 0 <= i < |q| => q[i].payload)
  }

  predicate NoPim(q: seq<Payload>) {
    forall p :: p in q ==> !p.command.PIM?
  }

  lemma {:induction false} PimsConcat(p: seq<Payload>, q: seq<Payload>)
    ensures Pims(p + q) == Pims(p) + Pims(q)
  {
    if q == [] {
      assert p + q == p;
    } else {
      assert (p + q)[..|p + q| - 1] == p + q[..|q| - 1];
      PimsConcat(p, q[..|q| - 1]);
    }
  }

  lemma {:induction false} PimsOfNone(q: seq<Payload>)
    requires NoPim(q)
    ensures Pims(q) == []
  {
    if q != [] {
      PimsOfNone(q[..|q| - 1]);
    }
  }

  lemma PimsOfOne(p: Payload)
    ensures Pims([p]) == if p.command.PIM? then [p] else []
  {
    assert [p][..0] == [];
  }

  // ---------------------------------------------------------------- the invariant

  /** Only compute commands take the compute queue, and they take no other way. */
  ghost predicate Apart(s: State) {
    && (forall c :: 0 <= c < |s.incoming| ==> NoPim(s.incoming[c]))
    && NoPim(s.readDone) && NoPim(s.writeDone)
    && (forall i :: 0 <= i < |s.computeQ| ==> s.computeQ[i].payload.command.PIM?)
  }

  ghost predicate Ordered(s: State) {
    Pims(s.returned) + Pims(s.outgoing) + Timeless(s.computeQ) == Pims(s.sent)
  }

  lemma SweepNoPim(q: seq<Payload>, addr: nat)
    requires NoPim(q)
    ensures NoPim(Taken(q, addr)) && NoPim(Kept(q, addr))
  {
    SweepConserves(q, addr);
    forall p | p in Taken(q, addr) || p in Kept(q, addr)
      ensures p in q
    {
      assert multiset(q)[p] == multiset(Taken(q, addr))[p] + multiset(Kept(q, addr))[p];
    }
  }

  lemma CallbackOrders(s: State, key: Key)
    requires Apart(s) && Ordered(s)
    ensures Apart(Callback(s, key)) && Ordered(Callback(s, key))
  {
    var q := if key.isWrite then s.writeDone else s.readDone;
    SweepNoPim(q, key.addr);
    PimsOfNone(Taken(q, key.addr));
    PimsConcat(s.outgoing, Taken(q, key.addr));
  }

  lemma SendOrders(s: State, p: Payload, channel: nat)
    requires channel < |s.incoming| && Apart(s) && Ordered(s)
    ensures Apart(Send(s, p, channel)) && Ordered(Send(s, p, channel))
  {
    var s' := Send(s, p, channel);
    PimsConcat(s.sent, [p]);
    PimsOfOne(p);
    if p.command.PIM? {
      assert Timeless(s'.computeQ) == Timeless(s.computeQ) + [p];
      Assoc(Pims(s.returned) + Pims(s.outgoing), Timeless(s.computeQ), [p]);
    }
  }

  lemma AcceptOrders(s: State, channel: nat)
    requires channel < |s.incoming| && s.incoming[channel] != [] && Apart(s) && Ordered(s)
    ensures Apart(Accept(s, channel)) && Ordered(Accept(s, channel))
  {
    assert NoPim(s.incoming[channel]) && NoPim(s.incoming[channel][1..]);
  }

  lemma TimelessFirst(q: seq<Timed>)
    requires q != []
    ensures Timeless(q) == [q[0].payload] + Timeless(q[1..])
  {
  }

  lemma Regroup<T>(a: seq<T>, b: seq<T>, c: seq<T>, d: seq<T>)
    ensures a + b + (c + d) == a + (b + c) + d
  {
  }

  lemma FinishOrders(s: State)
    requires s.computeQ != [] && Apart(s) && Ordered(s)
    ensures Apart(FinishCompute(s)) && Ordered(FinishCompute(s))
  {
    var p := s.computeQ[0].payload;
    PimsConcat(s.outgoing, [p]);
    PimsOfOne(p);
    TimelessFirst(s.computeQ);
    Regroup(Pims(s.returned), Pims(s.outgoing), [p], Timeless(s.computeQ[1..]));
  }

  lemma FetchOrders(s: State)
    requires Apart(s) && Ordered(s)
    ensures Apart(GetCompleted(s)) && Ordered(GetCompleted(s))
  {
    if s.outgoing != [] {
      var p := s.outgoing[0];
      assert s.outgoing == [p] + s.outgoing[1..];
      PimsConcat([p], s.outgoing[1..]);
      PimsConcat(s.returned, [p]);
      Assoc(Pims(s.returned), Pims([p]), Pims(s.outgoing[1..]));
    }
  }

  lemma StepOrders(s: State, e: Event)
    requires Enabled(s, e) && Apart(s) && Ordered(s)
    ensures Apart(Step(s, e)) && Ordered(Step(s, e))
  {
    match e {
      case Sending(p, channel) => SendOrders(s, p, channel);
      case Reporting(key) => CallbackOrders(s, key);
      case Accepting(channel) => AcceptOrders(s, channel);
      case Computing => FinishOrders(s);
      case Fetching => FetchOrders(s);
      case Advancing(_) =>
    }
  }

  lemma {:induction false} BehaviourOrders(channels: nat, states: seq<State>, events: seq<Event>, n: nat)
    requires Behaviour(channels, states, events) && n < |states|
    ensures Apart(states[n]) && Ordered(states[n])
    decreases n
  {
    if n > 0 {
      BehaviourOrders(channels, states, events, n - 1);
      assert FollowsAt(states, events, n - 1);
      StepOrders(states[n - 1], events[n - 1]);
    }
  }

  /** The compute commands that the bridge has handed back are the first ones that it was sent, in
      the same order; the others wait behind them in that order. */
  lemma ComputesInOrder(channels: nat, states: seq<State>, events: seq<Event>, n: nat)
    requires Behaviour(channels, states, events) && n < |states|
    ensures var s := states[n];
            && Pims(s.returned) + Pims(s.outgoing) + Timeless(s.computeQ) == Pims(s.sent)
            && Pims(s.returned) <= Pims(s.sent)
  {
    BehaviourOrders(channels, states, events, n);
    var s := states[n];
    Assoc(Pims(s.returned), Pims(s.outgoing), Timeless(s.computeQ));
  }
}
