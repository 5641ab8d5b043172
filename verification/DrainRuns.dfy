/** Rank refreshes terminate: for every reachable state, every continuation that keeps ticking,
    and whatever is submitted in between. */
module DrainRuns {
  import opened Basics
  import opened DramTypes
  import opened Controller
  import opened Runs
  import opened Drain

  /** Submissions and hand-backs between two ticks. */
  predicate Quiet(inputs: seq<Input>) {
    forall i :: 0 <= i < |inputs| ==> !inputs[i].Cycle?
  }

  function Feed(cfg: Config, s: State, inputs: seq<Input>): (r: Result<State>)
    requires Shaped(cfg, s)
    ensures r.Ok? ==> Shaped(cfg, r.value)
    decreases |inputs|
  {
    if inputs == [] then Ok(s)
    else
      var next :- Step(cfg, s, inputs[0]);
      Feed(cfg, next, inputs[1..])
  }

  function TickAndFeed(cfg: Config, s: State, inputs: seq<Input>): (r: Result<State>)
    requires Shaped(cfg, s)
    ensures r.Ok? ==> Shaped(cfg, r.value)
  {
    var after :- ClockTick(cfg, s);
    Feed(cfg, after, inputs)
  }

  /** `b` comes from `a` by one tick and any submissions and hand-backs after it. */
  ghost predicate Follows(cfg: Config, a: State, b: State) {
    Shaped(cfg, a) && exists batch :: Quiet(batch) && TickAndFeed(cfg, a, batch) == Ok(b)
  }

  lemma {:induction false} QuietFeed(cfg: Config, s: State, inputs: seq<Input>)
    requires Inv(cfg, s) && Quiet(inputs)
    ensures Feed(cfg, s, inputs).Ok?
    ensures var s' := Feed(cfg, s, inputs).value;
            Inv(cfg, s') && s'.ch == s.ch && s'.clk == s.clk
    decreases |inputs|
  {
    if inputs != [] {
      StepKeeps(cfg, s, inputs[0]);
      QuietStep(cfg, s, inputs[0]);
      QuietFeed(cfg, Step(cfg, s, inputs[0]).value, inputs[1..]);
    }
  }

  lemma QuietStep(cfg: Config, s: State, input: Input)
    requires Shaped(cfg, s) && !input.Cycle?
    ensures Step(cfg, s, input).Ok?
    ensures Step(cfg, s, input).value.ch == s.ch && Step(cfg, s, input).value.clk == s.clk
  {
  }

  lemma FollowsKeeps(cfg: Config, a: State, b: State)
    requires Inv(cfg, a) && Follows(cfg, a, b)
    ensures Inv(cfg, b) && ClockTick(cfg, a).Ok?
    ensures b.ch == ClockTick(cfg, a).value.ch && b.clk == ClockTick(cfg, a).value.clk
  {
    var batch :| Quiet(batch) && TickAndFeed(cfg, a, batch) == Ok(b);
    ClockTickKeeps(cfg, a);
    QuietFeed(cfg, ClockTick(cfg, a).value, batch);
  }

  /** The next tick leaves the refresh at the front and sends the rank nothing but precharges. */
  ghost predicate DrainsAt(cfg: Config, s: State, rank: int) {
    && Shaped(cfg, s) && RankFront(s, rank)
    && ClockTick(cfg, s).Ok?
    && OnlyPrecharges(s, ClockTick(cfg, s).value, rank)
    && RankFront(ClockTick(cfg, s).value, rank)
  }

  /** The next tick issues the refresh and removes exactly the front entry. */
  ghost predicate RefreshesAt(cfg: Config, s: State, rank: int) {
    && Shaped(cfg, s)
    && ClockTick(cfg, s).Ok?
    && Refreshes(RefreshPhase(cfg, s), ClockTick(cfg, s).value, rank)
  }

  /** The rank has fewer open banks, or is closer to a settling cycle that still holds. */
  ghost predicate Progress(s: State, s': State, rank: int, t: nat) {
    || OpenBanks(s'.ch, rank) < OpenBanks(s.ch, rank)
    || (OpenBanks(s'.ch, rank) == OpenBanks(s.ch, rank) && Settled(s'.ch, rank, t) && s.clk < t && s'.clk == s.clk + 1)
  }

  lemma DrainStep(cfg: Config, s: State, rank: int, t: nat)
    requires Inv(cfg, s) && RankFront(s, rank) && Settled(s.ch, rank, t)
    ensures ClockTick(cfg, s).Ok?
    ensures || RefreshesAt(cfg, s, rank)
            || (DrainsAt(cfg, s, rank) && Progress(s, ClockTick(cfg, s).value, rank, t))
  {
    DrainTick(cfg, s, rank, t);
    RefreshPhaseFrame(cfg, s, rank, t);
    if !RefreshesAt(cfg, s, rank) {
      DrainsByMeans(RefreshPhase(cfg, s), ClockTick(cfg, s).value, s, rank, t);
    }
  }

  /** The refresh generator only appends to the refresh queue. */
  lemma RefreshPhaseFrame(cfg: Config, s: State, rank: int, t: nat)
    requires Shaped(cfg, s) && RankFront(s, rank)
    ensures var r := RefreshPhase(cfg, s);
            && RankFront(r, rank) && r.shadow == s.shadow && r.clk == s.clk
            && OpenBanks(r.ch, rank) == OpenBanks(s.ch, rank)
            && (Settled(s.ch, rank, t) ==> Settled(r.ch, rank, t))
  {
  }

  lemma DrainsByMeans(begun: State, s': State, s: State, rank: int, t: nat)
    requires DrainsBy(begun, s', rank, t) && !Refreshes(begun, s', rank)
    requires RankFront(begun, rank) && begun.shadow == s.shadow && begun.clk == s.clk
    requires OpenBanks(begun.ch, rank) == OpenBanks(s.ch, rank)
    requires Settled(begun.ch, rank, t) && s'.clk == s.clk + 1
    ensures RankFront(s', rank) && OnlyPrecharges(s, s', rank) && Progress(s, s', rank, t)
  {
  }

  /** The same for a step of a continuation. */
  lemma DrainFollow(cfg: Config, a: State, b: State, rank: int, t: nat) returns (t': nat)
    requires Inv(cfg, a) && RankFront(a, rank) && Settled(a.ch, rank, t) && Follows(cfg, a, b)
    requires !RefreshesAt(cfg, a, rank)
    ensures DrainsAt(cfg, a, rank)
    ensures Inv(cfg, b) && RankFront(b, rank) && Settled(b.ch, rank, t')
    ensures || OpenBanks(b.ch, rank) < OpenBanks(a.ch, rank)
            || (OpenBanks(b.ch, rank) == OpenBanks(a.ch, rank) && t' == t && a.clk < t && b.clk == a.clk + 1)
  {
    FollowsKeeps(cfg, a, b);
    DrainStep(cfg, a, rank, t);
    t' := t;
    if OpenBanks(b.ch, rank) < OpenBanks(a.ch, rank) {
      t' := SettledOn(b.ch.banks);
    }
  }

  /** The measure of a drain falls from position `j` to `j + 1`: first the set of open banks, then
      the cycles until the settling cycle `u`. */
  ghost predicate Falls(open: nat -> set<BankId>, clk: nat -> nat, j: nat, u: nat, u': nat) {
    || open(j + 1) < open(j)
    || (open(j + 1) == open(j) && u' == u && clk(j) < u && clk(j + 1) == clk(j) + 1)
  }

  ghost predicate StepFalls(done: nat -> bool, good: (nat, nat) -> bool, open: nat -> set<BankId>, clk: nat -> nat, j: nat, u: nat) {
    good(j, u) && !done(j) ==> exists u': nat :: good(j + 1, u') && Falls(open, clk, j, u, u')
  }

  /** A measure that falls at every position until something is done gets it done. */
  lemma {:induction false} Descend(done: nat -> bool, good: (nat, nat) -> bool, open: nat -> set<BankId>, clk: nat -> nat, i: nat, t: nat)
    returns (n: nat)
    requires good(i, t)
    requires forall j: nat, u: nat :: StepFalls(done, good, open, clk, j, u)
    ensures n >= i && done(n)
    ensures forall m: nat :: i <= m < n ==> !done(m) && exists u: nat :: good(m, u)
    decreases open(i), Max(0, t - clk(i))
  {
    if done(i) {
      n := i;
    } else {
      assert StepFalls(done, good, open, clk, i, t);
      var t': nat :| good(i + 1, t') && Falls(open, clk, i, t, t');
      n := Descend(done, good, open, clk, i + 1, t');
      assert good(i, t) && !done(i);
      forall m: nat | i <= m < n
        ensures !done(m) && exists u: nat :: good(m, u)
      {
        assert m != i ==> i + 1 <= m;
      }
    }
  }

  ghost predicate Draining(cfg: Config, s: State, rank: int, t: nat) {
    Inv(cfg, s) && RankFront(s, rank) && Settled(s.ch, rank, t)
  }

  /** `states` is an infinite continuation: the states just before successive ticks. */
  ghost predicate Continues(cfg: Config, states: nat -> State, m: nat) {
    Follows(cfg, states(m), states(m + 1))
  }

  ghost function DoneAt(cfg: Config, states: nat -> State, rank: int): nat -> bool {
    (m: nat) => RefreshesAt(cfg, states(m), rank)
  }

  ghost function GoodAt(cfg: Config, states: nat -> State, rank: int): (nat, nat) -> bool {
    (m: nat, u: nat) => Draining(cfg, states(m), rank, u)
  }

  ghost function OpenAt(states: nat -> State, rank: int): nat -> set<BankId> {
    (m: nat) => OpenBanks(states(m).ch, rank)
  }

  ghost function ClockAt(states: nat -> State): nat -> nat {
    (m: nat) => states(m).clk
  }

  lemma DrainingFalls(cfg: Config, states: nat -> State, rank: int, j: nat, u: nat)
    requires Continues(cfg, states, j)
    ensures StepFalls(DoneAt(cfg, states, rank), GoodAt(cfg, states, rank), OpenAt(states, rank), ClockAt(states), j, u)
  {
    if Draining(cfg, states(j), rank, u) && !RefreshesAt(cfg, states(j), rank) {
      var u' := DrainFollow(cfg, states(j), states(j + 1), rank, u);
      assert Draining(cfg, states(j + 1), rank, u');
      assert Falls(OpenAt(states, rank), ClockAt(states), j, u, u');
    }
  }

  lemma DrainingDrains(cfg: Config, states: nat -> State, rank: int, m: nat)
    requires Continues(cfg, states, m)
    requires !DoneAt(cfg, states, rank)(m) && exists u: nat :: GoodAt(cfg, states, rank)(m, u)
    ensures DrainsAt(cfg, states(m), rank)
  {
    var u: nat :| GoodAt(cfg, states, rank)(m, u);
    var _ := DrainFollow(cfg, states(m), states(m + 1), rank, u);
  }

  /** In every run, a rank-level refresh that has reached the front of the refresh queue is
      issued after finitely many further ticks, whatever is submitted meanwhile; until then its
      rank receives only precharges and the refresh stays at the front. */
  lemma RankRefreshIsIssued(cfg: Config, past: seq<State>, inputs: seq<Input>, rank: int, states: nat -> State)
    requires Behaviour(cfg, past, inputs) && past[|inputs|] == states(0) && RankFront(states(0), rank)
    requires forall m: nat :: Continues(cfg, states, m)
    ensures exists n: nat :: RefreshesAt(cfg, states(n), rank) && forall m: nat :: m < n ==> DrainsAt(cfg, states(m), rank)
  {
    BehaviourKeepsInv(cfg, past, inputs, |inputs|);
    var t := SettledOn(states(0).ch.banks);
    assert GoodAt(cfg, states, rank)(0, t);
    forall j: nat, u: nat
      ensures StepFalls(DoneAt(cfg, states, rank), GoodAt(cfg, states, rank), OpenAt(states, rank), ClockAt(states), j, u)
    {
      DrainingFalls(cfg, states, rank, j, u);
    }
    var n := Descend(DoneAt(cfg, states, rank), GoodAt(cfg, states, rank), OpenAt(states, rank), ClockAt(states), 0, t);
    assert RefreshesAt(cfg, states(n), rank);
    forall m: nat | m < n
      ensures DrainsAt(cfg, states(m), rank)
    {
      DrainingDrains(cfg, states, rank, m);
    }
  }
}
