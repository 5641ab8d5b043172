/** When the bridge serves its PIM compute commands: one after the other, each for its own time. */
module BridgeService {
  import opened Basics
  import opened Bridge
  import opened BridgeOrder

  /** A compute command, when it was sent to the bridge and when it is done. */
  datatype Interval = Interval(payload: Payload, sentAt: nat, done: nat)

  /** The compute command that enters the bridge in this event. */
  function Entered(s: State, e: Event): seq<Interval>
    requires Enabled(s, e)
  {
    if e.Sending? && e.payload.command.PIM? && Step(s, e).computeQ != [] then
      var q := Step(s, e).computeQ;
      [Interval(e.payload, s.now, q[|q| - 1].time)]
    else []
  }

  /** All of them, up to the n-th state of a behaviour. */
  ghost function Intervals(states: seq<State>, events: seq<Event>, n: nat): seq<Interval>
    requires |states| == |events| + 1 && n < |states|
    requires forall i :: 0 <= i < |events| ==> FollowsAt(states, events, i)
  {
    if n == 0 then []
    else
      assert FollowsAt(states, events, n - 1);
      Intervals(states, events, n - 1) + Entered(states[n - 1], events[n - 1])
  }

  // ---------------------------------------------------------------- the invariant

  /** The k-th command starts as soon as it is sent and the one before it is done, and takes the
      nanoseconds of its address field and half a nanosecond. */
  predicate ExactAt(v: seq<Interval>, k: nat)
    requires k < |v|
  {
    v[k].done == Max(v[k].sentAt, if k == 0 then 0 else v[k - 1].done) + v[k].payload.address * 1000 + 500
  }

  ghost predicate Exact(v: seq<Interval>) {
    forall k :: 0 <= k < |v| ==> ExactAt(v, k)
  }

  function Timeds(v: seq<Interval>): (q: seq<Timed>)
    ensures |q| == |v|
    ensures forall k :: 0 <= k < |v| ==> q[k] == Timed(v[k].done, v[k].payload)
  {
    seq(|v|, k requires 0 <= k < |v| => Timed(v[k].done, v[k].payload))
  }

  function Senders(v: seq<Interval>): (q: seq<Payload>)
    ensures |q| == |v|
    ensures forall k :: 0 <= k < |v| ==> q[k] == v[k].payload
  {
    seq(|v|, k requires 0 <= k < |v| => v[k].payload)
  }

  /** The compute queue holds the last intervals, and the others are over. */
  ghost predicate QueueIsTail(q: seq<Timed>, v: seq<Interval>, now: nat) {
    && |q| <= |v|
    && q == Timeds(v[|v| - |q|..])
    && forall k :: 0 <= k < |v| - |q| ==> v[k].done <= now
  }

  ghost predicate Served(s: State, v: seq<Interval>) {
    && Exact(v)
    && s.lastDone == (if v == [] then 0 else v[|v| - 1].done)
    && QueueIsTail(s.computeQ, v, s.now)
    && Senders(v) == Pims(s.sent)
  }

  lemma TailGrows(q: seq<Timed>, v: seq<Interval>, now: nat, i: Interval)
    requires QueueIsTail(q, v, now)
    ensures QueueIsTail(q + [Timed(i.done, i.payload)], v + [i], now)
  {
    var k := |v| - |q|;
    assert (v + [i])[k..] == v[k..] + [i];
    assert Timeds(v[k..] + [i]) == Timeds(v[k..]) + [Timed(i.done, i.payload)];
  }

  lemma TailShrinks(q: seq<Timed>, v: seq<Interval>, now: nat)
    requires QueueIsTail(q, v, now) && q != [] && q[0].time <= now
    ensures QueueIsTail(q[1..], v, now)
  {
    var k := |v| - |q|;
    assert q[0] == Timeds(v[k..])[0];
    assert v[k + 1..] == v[k..][1..];
    assert Timeds(v[k + 1..]) == Timeds(v[k..])[1..];
  }

  lemma SendServes(s: State, p: Payload, channel: nat, v: seq<Interval>)
    requires channel < |s.incoming| && Served(s, v) && p.command.PIM?
    ensures Served(Send(s, p, channel), v + Entered(s, Sending(p, channel)))
  {
    var s' := Send(s, p, channel);
    var i := Interval(p, s.now, s'.lastDone);
    assert Entered(s, Sending(p, channel)) == [i];
    TailGrows(s.computeQ, v, s.now, i);
    PimsConcat(s.sent, [p]);
    PimsOfOne(p);
    assert Senders(v + [i]) == Senders(v) + [p];
    forall k | 0 <= k < |v + [i]|
      ensures ExactAt(v + [i], k)
    {
      if k < |v| {
        assert ExactAt(v, k);
      }
    }
  }

  lemma OtherSendServes(s: State, p: Payload, channel: nat, v: seq<Interval>)
    requires channel < |s.incoming| && Served(s, v) && !p.command.PIM?
    ensures Served(Send(s, p, channel), v)
  {
    PimsConcat(s.sent, [p]);
    PimsOfOne(p);
  }

  lemma FinishServes(s: State, v: seq<Interval>)
    requires Enabled(s, Computing) && Served(s, v)
    ensures Served(FinishCompute(s), v)
  {
    TailShrinks(s.computeQ, v, s.now);
  }

  lemma StepServes(s: State, e: Event, v: seq<Interval>)
    requires Enabled(s, e) && Served(s, v)
    ensures Served(Step(s, e), v + Entered(s, e))
  {
    if e.Sending? && e.payload.command.PIM? {
      SendServes(s, e.payload, e.channel, v);
    } else {
      assert v + Entered(s, e) == v;
      match e {
        case Sending(p, channel) => OtherSendServes(s, p, channel, v);
        case Computing => FinishServes(s, v);
        case _ =>
      }
    }
  }

  lemma {:induction false} BehaviourServes(channels: nat, states: seq<State>, events: seq<Event>, n: nat)
    requires Behaviour(channels, states, events) && n < |states|
    ensures Served(states[n], Intervals(states, events, n))
    decreases n
  {
    if n > 0 {
      BehaviourServes(channels, states, events, n - 1);
      assert FollowsAt(states, events, n - 1);
      StepServes(states[n - 1], events[n - 1], Intervals(states, events, n - 1));
    }
  }

  // ---------------------------------------------------------------- all behaviours

  /** In every behaviour the compute commands occupy the device one after the other in the order in
      which they were sent, each for its nanoseconds and a half, without a pause that is not needed. */
  lemma ComputesAreServed(channels: nat, states: seq<State>, events: seq<Event>, n: nat)
    requires Behaviour(channels, states, events) && n < |states|
    ensures var v := Intervals(states, events, n);
            && Senders(v) == Pims(states[n].sent)
            && forall k :: 0 <= k < |v| ==>
                             v[k].done == (if k > 0 && v[k - 1].done > v[k].sentAt then v[k - 1].done else v[k].sentAt)
                             + v[k].payload.address * 1000 + 500
  {
    BehaviourServes(channels, states, events, n);
    var v := Intervals(states, events, n);
    forall k | 0 <= k < |v|
      ensures v[k].done == (if k > 0 && v[k - 1].done > v[k].sentAt then v[k - 1].done else v[k].sentAt)
                           + v[k].payload.address * 1000 + 500
    {
      assert ExactAt(v, k);
    }
  }

  /** The compute commands handed back or on the way back are done, and the others wait, in order,
      with their ends. */
  ghost predicate DoneAndWaiting(s: State, v: seq<Interval>) {
    && |s.computeQ| <= |v|
    && Pims(s.returned) + Pims(s.outgoing) == Senders(v[..|v| - |s.computeQ|])
    && (forall k :: 0 <= k < |v| - |s.computeQ| ==> v[k].done <= s.now)
    && s.computeQ == Timeds(v[|v| - |s.computeQ|..])
  }

  lemma ReturnedAreDone(channels: nat, states: seq<State>, events: seq<Event>, n: nat)
    requires Behaviour(channels, states, events) && n < |states|
    ensures DoneAndWaiting(states[n], Intervals(states, events, n))
  {
    BehaviourServes(channels, states, events, n);
    ComputesInOrder(channels, states, events, n);
    TailIs(states[n], Intervals(states, events, n));
  }

  lemma TailIs(s: State, v: seq<Interval>)
    requires QueueIsTail(s.computeQ, v, s.now) && Senders(v) == Pims(s.sent)
    requires Pims(s.returned) + Pims(s.outgoing) + Timeless(s.computeQ) == Pims(s.sent)
    ensures DoneAndWaiting(s, v)
  {
    FrontIs(Pims(s.returned) + Pims(s.outgoing), Timeless(s.computeQ), v);
  }

  lemma FrontIs(a: seq<Payload>, b: seq<Payload>, v: seq<Interval>)
    requires a + b == Senders(v)
    ensures a == Senders(v[..|v| - |b|])
  {
    SplitSenders(v, |v| - |b|);
    SameFront(a, b, Senders(v[..|v| - |b|]), Senders(v[|v| - |b|..]));
  }

  lemma SplitSenders(v: seq<Interval>, m: nat)
    requires m <= |v|
    ensures Senders(v) == Senders(v[..m]) + Senders(v[m..])
  {
  }

  lemma SameFront<T>(a: seq<T>, b: seq<T>, c: seq<T>, d: seq<T>)
    requires a + b == c + d && |b| == |d|
    ensures a == c
  {
    assert (a + b)[..|a|] == a && (c + d)[..|c|] == c;
  }

  /** The completion loop leaves no command that is done. */
  lemma {:induction false} NoneDueIsLeft(s: State)
    ensures ComputeAll(s).computeQ != [] ==> ComputeAll(s).computeQ[0].time > s.now
    decreases |s.computeQ|
  {
    if s.computeQ != [] && s.computeQ[0].time <= s.now {
      NoneDueIsLeft(FinishCompute(s));
    }
  }

  /** Fetching hands the oldest finished payload back. */
  lemma FetchTakesOldest(s: State)
    requires s.outgoing != []
    ensures [s.outgoing[0]] + GetCompleted(s).outgoing == s.outgoing
    ensures GetCompleted(s).returned == s.returned + [s.outgoing[0]]
  {
  }

  // ---------------------------------------------------------------- a whole tick

  /** What callbacks leave alone. */
  predicate CallbackFrame(s: State, r: State) {
    r.incoming == s.incoming && r.now == s.now
  }

  lemma CallbackKeepsFrame(s: State, r: State, key: Key)
    requires CallbackFrame(s, r)
    ensures CallbackFrame(s, Callback(r, key))
  {
  }

  lemma {:induction false} ReportsKeepFrame(s: State, reports: seq<Key>, n: nat)
    requires n <= |reports|
    ensures CallbackFrame(s, ReportAll(s, reports, n))
  {
    if n > 0 {
      ReportsKeepFrame(s, reports, n - 1);
      CallbackKeepsFrame(s, ReportAll(s, reports, n - 1), reports[n - 1]);
    }
  }

  /** Channel `c` before and after the first `n` channels have offered their fronts. */
  predicate FrontAt(before: seq<seq<Payload>>, after: seq<seq<Payload>>, accepts: seq<bool>, n: nat, c: nat)
    requires |accepts| == |before| == |after| && c < |accepts|
  {
    after[c] == if c < n && accepts[c] && before[c] != [] then before[c][1..] else before[c]
  }

  lemma OfferFrame(r: State, n: nat, accepted: bool)
    requires n < |r.incoming|
    ensures Offer(r, n, accepted).incoming
         == if accepted && r.incoming[n] != [] then r.incoming[n := r.incoming[n][1..]] else r.incoming
  {
  }

  lemma FrontStep(before: seq<seq<Payload>>, after: seq<seq<Payload>>, after': seq<seq<Payload>>, accepts: seq<bool>, n: nat, c: nat)
    requires |accepts| == |before| == |after| && c < |accepts| && n < |accepts|
    requires FrontAt(before, after, accepts, n, c) && FrontAt(before, after, accepts, n, n)
    requires after' == if accepts[n] && after[n] != [] then after[n := after[n][1..]] else after
    ensures FrontAt(before, after', accepts, n + 1, c)
  {
  }

  lemma {:induction false} AcceptsTakeFronts(s: State, accepts: seq<bool>, n: nat, c: nat)
    requires |accepts| == |s.incoming| && n <= |accepts| && c < |accepts|
    ensures FrontAt(s.incoming, AcceptAll(s, accepts, n).incoming, accepts, n, c)
  {
    if n > 0 {
      AcceptsTakeFronts(s, accepts, n - 1, c);
      AcceptsTakeFronts(s, accepts, n - 1, n - 1);
      var r := AcceptAll(s, accepts, n - 1);
      OfferFrame(r, n - 1, accepts[n - 1]);
      FrontStep(s.incoming, r.incoming, Offer(r, n - 1, accepts[n - 1]).incoming, accepts, n - 1, c);
    }
  }

  lemma {:induction false} ComputesKeepIncoming(s: State)
    ensures ComputeAll(s).incoming == s.incoming && ComputeAll(s).below == s.below
    decreases |s.computeQ|
  {
    if s.computeQ != [] && s.computeQ[0].time <= s.now {
      ComputesKeepIncoming(FinishCompute(s));
    }
  }

  /** In one tick each channel that the memory system accepts from gives exactly its front payload. */
  lemma TickTakesFronts(s: State, reports: seq<Key>, accepts: seq<bool>, c: nat)
    requires |accepts| == |s.incoming| && c < |accepts|
    ensures |Tick(s, reports, accepts).incoming| == |s.incoming|
    ensures Tick(s, reports, accepts).incoming[c]
         == if accepts[c] && s.incoming[c] != [] then s.incoming[c][1..] else s.incoming[c]
    ensures Tick(s, reports, accepts).computeQ != [] ==> Tick(s, reports, accepts).computeQ[0].time > s.now
  {
    var reported := ReportAll(s, reports, |reports|);
    ReportsKeepFrame(s, reports, |reports|);
    AcceptsTakeFronts(reported, accepts, |accepts|, c);
    var accepted := AcceptAll(reported, accepts, |accepts|);
    ComputesKeepIncoming(accepted);
    NowStays(s, reports, accepts);
    NoneDueIsLeft(accepted);
  }

  lemma {:induction false} AcceptsKeepNow(s: State, accepts: seq<bool>, n: nat)
    requires |accepts| == |s.incoming| && n <= |accepts|
    ensures AcceptAll(s, accepts, n).now == s.now
  {
    if n > 0 {
      AcceptsKeepNow(s, accepts, n - 1);
    }
  }

  lemma NowStays(s: State, reports: seq<Key>, accepts: seq<bool>)
    requires |accepts| == |s.incoming|
    ensures AcceptAll(ReportAll(s, reports, |reports|), accepts, |accepts|).now == s.now
  {
    ReportsKeepFrame(s, reports, |reports|);
    AcceptsKeepNow(ReportAll(s, reports, |reports|), accepts, |accepts|);
  }
}
