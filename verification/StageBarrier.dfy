/** The end of a draft stage: clock_negedge raises the barrier event when it retires a transaction
    whose `last` flag is set (pim_wrapper.cpp). */
module StageBarrier {
  import opened DraftWork
  import Pim
  import ComputeOrder

  /** How many transactions of the list carry the flag. */
  function Lasts(q: seq<Transaction>): nat {
    if q == [] then 0 else Lasts(q[..|q| - 1]) + if q[|q| - 1].last then 1 else 0
  }

  lemma {:induction false} LastsConcat(p: seq<Transaction>, q: seq<Transaction>)
    ensures Lasts(p + q) == Lasts(p) + Lasts(q)
  {
    if q == [] {
      assert p + q == p;
    } else {
      assert (p + q)[..|p + q| - 1] == p + q[..|q| - 1];
      LastsConcat(p, q[..|q| - 1]);
    }
  }

  lemma {:induction false} NoLasts(q: seq<Transaction>)
    ensures Lasts(q) == 0 <==> forall k :: 0 <= k < |q| ==> !q[k].last
  {
    if q != [] {
      NoLasts(q[..|q| - 1]);
    }
  }

  // ---------------------------------------------------------------- one stage

  /** A stage's transactions as the host queues them. */
  function Queued(stage: seq<Item>): (t: seq<Transaction>)
    ensures |t| == |stage|
  {
    Flagged(stage, |stage| % WORD64)
  }

  /** However many transactions are retired, the event has been raised if and only if all are. */
  predicate RaisedAtTheEnd(stage: seq<Item>) {
    forall r: nat :: r <= |stage| ==> Lasts(Queued(stage)[..r]) == if r == |stage| then 1 else 0
  }

  lemma RaisedAtTheEndIff(stage: seq<Item>)
    ensures RaisedAtTheEnd(stage) <==> 0 < |stage| <= WORD64
  {
    LastFlag(stage, |stage| % WORD64);
    var t := Queued(stage);
    if 0 < |stage| <= WORD64 {
      forall r: nat | r <= |stage|
        ensures Lasts(t[..r]) == if r == |stage| then 1 else 0
      {
        if r == |stage| {
          assert t[..r][..r - 1] == t[..r - 1];
          NoLasts(t[..r - 1]);
        } else {
          NoLasts(t[..r]);
        }
      }
    }
    if RaisedAtTheEnd(stage) {
      OneAtTheEnd(stage);
    }
  }

  lemma OneAtTheEnd(stage: seq<Item>)
    requires RaisedAtTheEnd(stage)
    ensures ExactlyOneLast(Queued(stage))
  {
    var t := Queued(stage);
    assert Lasts(t[..0]) == 0;
    var n := |stage| - 1;
    assert Lasts(t[..n]) == 0 && Lasts(t[..n + 1]) == 1;
    NoLasts(t[..n]);
    assert forall k :: 0 <= k < n ==> t[..n][k] == t[k];
    assert t[..n + 1][..n] == t[..n];
  }

  // ---------------------------------------------------------------- a sequence of stages

  /** All transactions of the stages, in the order in which the host queues them. */
  function AllQueued(stages: seq<seq<Item>>): seq<Transaction> {
    if stages == [] then [] else AllQueued(stages[..|stages| - 1]) + Queued(stages[|stages| - 1])
  }

  /** How many stages end within the first `r` transactions. */
  function Finished(stages: seq<seq<Item>>, r: nat): nat {
    if stages == [] then 0
    else Finished(stages[..|stages| - 1], r) + if |AllQueued(stages)| <= r then 1 else 0
  }

  predicate Proper(stages: seq<seq<Item>>) {
    forall k :: 0 <= k < |stages| ==> 0 < |stages[k]| <= WORD64
  }

  /** After any number of transactions there have been as many flags as finished stages. */
  lemma {:induction false} FlagsCountStages(stages: seq<seq<Item>>, r: nat)
    requires Proper(stages) && r <= |AllQueued(stages)|
    ensures Lasts(AllQueued(stages)[..r]) == Finished(stages, r)
  {
    if stages != [] {
      var front, stage := stages[..|stages| - 1], stages[|stages| - 1];
      var before := AllQueued(front);
      RaisedAtTheEndIff(stage);
      if r <= |before| {
        assert AllQueued(stages)[..r] == before[..r];
        FlagsCountStages(front, r);
      } else {
        var k := r - |before|;
        assert AllQueued(stages)[..r] == before + Queued(stage)[..k];
        LastsConcat(before, Queued(stage)[..k]);
        FlagsCountStages(front, |before|);
        assert before[..|before|] == before;
        FinishedEarlier(front, |before|, r);
      }
    }
  }

  /** Stages that end by `r` transactions have ended by any later number. */
  lemma {:induction false} FinishedEarlier(stages: seq<seq<Item>>, r: nat, later: nat)
    requires |AllQueued(stages)| <= r <= later
    ensures Finished(stages, later) == Finished(stages, r) == |stages|
  {
    if stages != [] {
      FinishedEarlier(stages[..|stages| - 1], r, later);
    }
  }

  // ---------------------------------------------------------------- on the device

  /** The device's compute arrivals are the queued transactions: the k-th one bears number k. */
  ghost predicate Feeds(arrived: seq<Pim.Payload>, all: seq<Transaction>) {
    var c := ComputeOrder.Computes(arrived);
    |c| <= |all| && forall k :: 0 <= k < |c| ==> c[k].id == k
  }

  /** How often clock_negedge has raised the event when `retired` is what it has retired. */
  function Raised(retired: seq<Pim.Payload>, all: seq<Transaction>): nat {
    if retired == [] then 0
    else
      var p := retired[|retired| - 1];
      Raised(retired[..|retired| - 1], all) + if p.id < |all| && all[p.id].last then 1 else 0
  }

  lemma {:induction false} RaisedIsLasts(retired: seq<Pim.Payload>, all: seq<Transaction>)
    requires |retired| <= |all| && forall k :: 0 <= k < |retired| ==> retired[k].id == k
    ensures Raised(retired, all) == Lasts(all[..|retired|])
  {
    if retired != [] {
      var n := |retired| - 1;
      RaisedIsLasts(retired[..n], all);
      assert all[..n + 1][..n] == all[..n];
    }
  }

  /** In every behaviour of the device the event has been raised once for each stage whose
      transactions are all retired, and for no other. */
  lemma RaisedOncePerStage(cfg: Pim.Config, states: seq<Pim.Pim>, events: seq<Pim.Event>, fast: bool, n: nat, stages: seq<seq<Item>>)
    requires ComputeOrder.OrderlyBehaviour(cfg, states, events, fast) && n < |states|
    requires Proper(stages) && Feeds(states[n].log.arrived, AllQueued(stages))
    ensures var retired := ComputeOrder.Retired(states, events, n);
            && retired <= ComputeOrder.Computes(states[n].log.arrived)
            && Raised(retired, AllQueued(stages)) == Finished(stages, |retired|)
  {
    ComputeOrder.RetiredInOrder(cfg, states, events, fast, n);
    var retired, rest := ComputeOrder.Retired(states, events, n), ComputeOrder.Unretired(states[n]);
    assert forall k :: 0 <= k < |retired| ==> retired[k] == (retired + rest)[k];
    RaisedIsLasts(retired, AllQueued(stages));
    FlagsCountStages(stages, |retired|);
  }

  /** The same for one stage: the event has been raised exactly when the device has retired all of
      its transactions. */
  lemma RaisedWhenAllRetired(cfg: Pim.Config, states: seq<Pim.Pim>, events: seq<Pim.Event>, fast: bool, n: nat, stage: seq<Item>)
    requires ComputeOrder.OrderlyBehaviour(cfg, states, events, fast) && n < |states|
    requires 0 < |stage| <= WORD64 && Feeds(states[n].log.arrived, Queued(stage))
    ensures var retired := ComputeOrder.Retired(states, events, n);
            Raised(retired, Queued(stage)) == if |retired| == |stage| then 1 else 0
  {
    assert AllQueued([]) + Queued(stage) == Queued(stage);
    assert [stage][..0] == [];
    assert AllQueued([stage]) == Queued(stage);
    RaisedOncePerStage(cfg, states, events, fast, n, [stage]);
  }
}
