/** How many payloads one callback of the bridge completes: the exact condition for at most
    one, and a behaviour in which it is two. */
module BridgeCallbacks {
  import opened Bridge

  predicate Match(q: seq<Payload>, addr: nat, i: nat) {
    i < |q| && q[i].address == addr
  }

  /** There are at most two matches, and two only next to each other. */
  ghost predicate AtMostAPair(q: seq<Payload>, addr: nat) {
    forall i: nat, j: nat :: i < j && Match(q, addr, i) && Match(q, addr, j) ==> j == i + 1
  }

  lemma {:induction false} NothingTaken(q: seq<Payload>, addr: nat)
    ensures Taken(q, addr) == [] <==> forall i: nat :: !Match(q, addr, i)
    decreases |q|
  {
    if q != [] {
      assert q[0].address == addr <==> Match(q, addr, 0);
      if q[0].address != addr {
        NothingTaken(q[1..], addr);
        MatchesBehind(q, addr, 1);
      }
    }
  }

  /** Exactly when one callback completes at most one payload: the loop skips a second match
      only if it follows the first one at once. */
  lemma {:induction false} TakesOneIff(q: seq<Payload>, addr: nat)
    ensures |Taken(q, addr)| <= 1 <==> AtMostAPair(q, addr)
    decreases |q|
  {
    if q != [] {
      if q[0].address != addr {
        TakesOneIff(q[1..], addr);
        ShiftPairs(q, addr);
      } else if |q| > 1 {
        NothingTaken(q[2..], addr);
        PairAtFront(q, addr);
      }
    }
  }

  lemma MatchesBehind(q: seq<Payload>, addr: nat, n: nat)
    requires n <= |q|
    ensures forall i: nat :: Match(q[n..], addr, i) ==> Match(q, addr, i + n)
    ensures forall j: nat :: Match(q, addr, j) && j >= n ==> Match(q[n..], addr, j - n)
  {
  }

  lemma ShiftPairs(q: seq<Payload>, addr: nat)
    requires q != [] && q[0].address != addr
    ensures AtMostAPair(q[1..], addr) <==> AtMostAPair(q, addr)
  {
    MatchesBehind(q, addr, 1);
    forall i: nat, j: nat | AtMostAPair(q[1..], addr) && i < j && Match(q, addr, i) && Match(q, addr, j)
      ensures j == i + 1
    {
      assert Match(q[1..], addr, i - 1) && Match(q[1..], addr, j - 1);
    }
    forall i: nat, j: nat | AtMostAPair(q, addr) && i < j && Match(q[1..], addr, i) && Match(q[1..], addr, j)
      ensures j == i + 1
    {
      assert Match(q, addr, i + 1) && Match(q, addr, j + 1);
    }
  }

  lemma PairAtFront(q: seq<Payload>, addr: nat)
    requires |q| > 1 && q[0].address == addr
    ensures AtMostAPair(q, addr) <==> forall i: nat :: !Match(q[2..], addr, i)
  {
    assert Match(q, addr, 0);
    MatchesBehind(q, addr, 2);
  }

  /** The same about a callback: it hands out at most one payload in exactly those states. */
  lemma CallbackTakesOneIff(s: State, key: Key)
    ensures |Callback(s, key).outgoing| <= |s.outgoing| + 1
       <==> AtMostAPair(if key.isWrite then s.writeDone else s.readDone, key.addr)
  {
    TakesOneIff(if key.isWrite then s.writeDone else s.readDone, key.addr);
  }

  // ---------------------------------------------------------------- a behaviour

  /** A bridge of one channel that serves reads of address 7, `held` of which are below. */
  function Serving(waiting: seq<Payload>, readDone: seq<Payload>, outgoing: seq<Payload>, held: nat, sent: seq<Payload>): State {
    State(0, [waiting], readDone, [], [], outgoing, 0, multiset{}[Key(7, false) := held], sent, [])
  }

  lemma ServingStart()
    ensures InitialState(1) == Serving([], [], [], 0, [])
  {
  }

  lemma Extend(channels: nat, states: seq<State>, events: seq<Event>, e: Event, s': State)
    requires Behaviour(channels, states, events) && Follows(states[|events|], e, s')
    ensures Behaviour(channels, states + [s'], events + [e])
  {
    forall i | 0 <= i < |events + [e]|
      ensures FollowsAt(states + [s'], events + [e], i)
    {
      if i < |events| {
        assert FollowsAt(states, events, i);
      }
    }
  }

  lemma ServingSend(waiting: seq<Payload>, sent: seq<Payload>, p: Payload)
    requires p.command.READ?
    ensures Follows(Serving(waiting, [], [], 0, sent), Sending(p, 0), Serving(waiting + [p], [], [], 0, sent + [p]))
  {
  }

  lemma ServingAccept(waiting: seq<Payload>, readDone: seq<Payload>, held: nat, sent: seq<Payload>)
    requires waiting != [] && waiting[0].command.READ? && waiting[0].address == 7
    ensures Follows(Serving(waiting, readDone, [], held, sent), Accepting(0),
                    Serving(waiting[1..], readDone + [waiting[0]], [], held + 1, sent))
  {
  }

  lemma ServingReport(readDone: seq<Payload>, held: nat, sent: seq<Payload>)
    requires held > 0
    ensures Follows(Serving([], readDone, [], held, sent), Reporting(Key(7, false)),
                    Serving([], Kept(readDone, 7), Taken(readDone, 7), held - 1, sent))
  {
  }

  lemma SweepOfThree(a: Payload, b: Payload, c: Payload)
    requires a.address == b.address == c.address == 7
    ensures Taken([a, b, c], 7) == [a, c] && Kept([a, b, c], 7) == [b]
  {
    assert [a, b, c][2..] == [c];
    assert Taken([c], 7) == [c] && Kept([c], 7) == [];
  }

  lemma ThreeSent(a: Payload, b: Payload, c: Payload) returns (states: seq<State>, events: seq<Event>)
    requires a.command.READ? && b.command.READ? && c.command.READ?
    ensures Behaviour(1, states, events)
    ensures states[|events|] == Serving([a, b, c], [], [], 0, [a, b, c])
  {
    var s0, s1, s2 := Serving([], [], [], 0, []), Serving([a], [], [], 0, [a]), Serving([a, b], [], [], 0, [a, b]);
    ServingStart();
    ServingSend([], [], a);
    ServingSend([a], [a], b);
    ServingSend([a, b], [a, b], c);
    assert [] + [a] == [a] && [a] + [b] == [a, b] && [a, b] + [c] == [a, b, c];
    Extend(1, [s0], [], Sending(a, 0), s1);
    Extend(1, [s0] + [s1], [] + [Sending(a, 0)], Sending(b, 0), s2);
    states, events := [s0] + [s1] + [s2], [] + [Sending(a, 0)] + [Sending(b, 0)];
    Extend(1, states, events, Sending(c, 0), Serving([a, b, c], [], [], 0, [a, b, c]));
    states, events := states + [Serving([a, b, c], [], [], 0, [a, b, c])], events + [Sending(c, 0)];
  }

  /** The memory system accepts what waits, one request after another. */
  lemma {:induction false} AllAccepted(states: seq<State>, events: seq<Event>, waiting: seq<Payload>, readDone: seq<Payload>,
                                       held: nat, sent: seq<Payload>)
    returns (states': seq<State>, events': seq<Event>)
    requires forall i :: 0 <= i < |waiting| ==> waiting[i].command.READ? && waiting[i].address == 7
    requires Behaviour(1, states, events) && states[|events|] == Serving(waiting, readDone, [], held, sent)
    ensures Behaviour(1, states', events')
    ensures states'[|events'|] == Serving([], readDone + waiting, [], held + |waiting|, sent)
    decreases |waiting|
  {
    if waiting == [] {
      states', events' := states, events;
      assert readDone + [] == readDone;
    } else {
      var s' := Serving(waiting[1..], readDone + [waiting[0]], [], held + 1, sent);
      ServingAccept(waiting, readDone, held, sent);
      Extend(1, states, events, Accepting(0), s');
      states', events' := AllAccepted(states + [s'], events + [Accepting(0)], waiting[1..], readDone + [waiting[0]], held + 1, sent);
      assert readDone + [waiting[0]] + waiting[1..] == readDone + waiting;
    }
  }

  /** Three reads of one address, sent and accepted in turn, and a single callback: two of them
      are handed out although the memory system has reported one and still holds two. */
  lemma OneCallbackMayCompleteSeveral() returns (states: seq<State>, events: seq<Event>, a: Payload, b: Payload, c: Payload)
    ensures Behaviour(1, states, events)
    ensures a != b && b != c && a != c && a.address == b.address == c.address
    ensures var s := states[|events|];
            && s.sent == [a, b, c]
            && s.outgoing == [a, c] && s.readDone == [b]
            && s.below[Key(a.address, false)] == 2
  {
    a, b, c := Payload(0, READ, 7), Payload(1, READ, 7), Payload(2, READ, 7);
    var sent := [a, b, c];
    states, events := ThreeSent(a, b, c);
    states, events := AllAccepted(states, events, sent, [], 0, sent);
    assert [] + sent == sent;
    ServingReport(sent, 3, sent);
    SweepOfThree(a, b, c);
    var last := Serving([], [b], [a, c], 2, sent);
    Extend(1, states, events, Reporting(Key(7, false)), last);
    states, events := states + [last], events + [Reporting(Key(7, false))];
  }
}
