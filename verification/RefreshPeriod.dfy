/** How often each rank or bank is due for a refresh, in the configured intervals. */
module RefreshPeriod {
  import opened Arithmetic
  import opened DramTypes
  import opened Channel
  import opened RefreshUnit
  import opened Controller
  import opened OrderingSchedule
  import opened Runs

  /** The cycles between two insertions. */
  predicate Period(cfg: Config, p: int) {
    match cfg.refreshPolicy
    case RankSimultaneous => p == cfg.tREFI
    case RankStaggered => cfg.ranks > 0 && p == cfg.tREFI / cfg.ranks
    case BankStaggered => p == cfg.tREFIb
  }

  /** The tick at cycle `t` inserts a refresh exactly at the positive multiples of the period, the
      next one in order. */
  lemma TickInserts(cfg: Config, t: nat, p: int)
    requires Configured(cfg) && Period(cfg, p)
    ensures p > 0
    ensures Inserted(cfg, CountersAfter(cfg, t)) == if t > 0 && t % p == 0 then [Target(cfg, t / p - 1)] else []
  {
    InsertionsFollowDigits(cfg, t);
    if t > 0 && t % p == 0 {
      MultipleBefore(t, p);
      WantedIsTarget(cfg, t / p - 1, t);
    }
  }

  lemma MultipleBefore(t: nat, p: int)
    requires t > 0 && p > 0 && t % p == 0
    ensures t / p >= 1 && (t - 1) / p == t / p - 1
  {
    var k := t / p;
    assert t == k * p + 0;
    if k <= 0 {
      MulMonotone(k, 0, p);
    }
    Distribute(k - 1, 1, p);
    Digits(k - 1, p - 1, p);
  }

  lemma WantedIsTarget(cfg: Config, k: nat, clk: nat)
    requires cfg.WellFormed()
    ensures Wanted(cfg, DigitCounters(cfg, k, clk)) == Target(cfg, k)
  {
  }

  /** The first index from `x` on whose place in its round is `place`. */
  lemma NextPlace(x: nat, place: nat, round: nat) returns (k: nat)
    requires place < round
    ensures x <= k * round + place < x + round
  {
    var hi, lo := x / round, x % round;
    assert x == hi * round + lo;
    k := if lo <= place then hi else hi + 1;
    Distribute(hi, 1, round);
  }

  /** From any tick on, a refresh of the round is inserted before a full round of periods is over. */
  lemma CoveredWithin(cfg: Config, p: int, cmd: Command, t: nat) returns (u: nat)
    requires Configured(cfg) && Period(cfg, p) && InRound(cfg, cmd) && t > 0
    ensures t <= u < t + RoundLength(cfg) * p
    ensures Inserted(cfg, CountersAfter(cfg, u)) == [cmd]
  {
    TickInserts(cfg, 0, p);
    RoundIsPositive(cfg);
    RoundCoversOnce(cfg, 0, cmd, 0);
    var place, round := Place(cfg, cmd), RoundLength(cfg);
    var x := (t - 1) / p;
    var k := NextPlace(x, place, round);
    var index := k * round + place;
    u := (index + 1) * p;
    WithinRound(t, p, x, index, round);
    RoundCoversOnce(cfg, k, cmd, place);
    Digits(index + 1, 0, p);
    TickInserts(cfg, u, p);
  }

  lemma WithinRound(t: nat, p: int, x: nat, index: nat, round: nat)
    requires t > 0 && p > 0 && x == (t - 1) / p && x <= index < x + round
    ensures t <= (index + 1) * p < t + round * p
  {
    assert t - 1 == x * p + (t - 1) % p;
    Distribute(x, 1, p);
    Distribute(x, round, p);
    MulMonotone(x + 1, index + 1, p);
    MulMonotone(index + 1, x + round, p);
  }

  lemma RoundIsPositive(cfg: Config)
    requires cfg.WellFormed()
    ensures RoundLength(cfg) > 0
  {
    if cfg.refreshPolicy.BankStaggered? {
      MulMonotone(1, cfg.ranks, cfg.banksPerGroup);
      MulMonotone(1, cfg.ranks * cfg.banksPerGroup, cfg.bankgroups);
    }
  }

  // ---------------------------------------------------------------- runs

  lemma TickMovesCounters(cfg: Config, s: State)
    requires Inv(cfg, s)
    ensures ClockTick(cfg, s).Ok?
    ensures ClockTick(cfg, s).value.rf == Tick(cfg, s.rf) && ClockTick(cfg, s).value.clk == s.clk + 1
  {
    BeginKeeps(cfg, s);
    var begun := RefreshPhase(cfg, s);
    ChooseAndIssueKeep(cfg, begun);
    ScheduleKeepsPending(cfg, IssuePhase(cfg, ChoosePhase(cfg, begun).value).value);
  }

  lemma StepMovesCounters(cfg: Config, s: State, input: Input, s': State)
    requires Inv(cfg, s) && Leads(cfg, s, input, s')
    ensures if input.Cycle? then s'.rf == Tick(cfg, s.rf) && s'.clk == s.clk + 1 else s'.rf == s.rf && s'.clk == s.clk
  {
    match input {
      case Submit(req) => OthersKeepCounters(cfg, s, req, 0);
      case Cycle => TickMovesCounters(cfg, s);
      case HandBack(clk) => OthersKeepCounters(cfg, s, Request(0, false, 0), clk);
    }
  }

  lemma OthersKeepCounters(cfg: Config, s: State, req: Request, clk: nat)
    ensures AddTransaction(cfg, s, req).rf == s.rf && AddTransaction(cfg, s, req).clk == s.clk
    ensures ReturnDone(s, clk).rf == s.rf && ReturnDone(s, clk).clk == s.clk
  {
  }

  /** The refresh unit of a run has counted every tick. */
  lemma {:induction false} CountersFollowClock(cfg: Config, states: seq<State>, inputs: seq<Input>, n: nat)
    requires Behaviour(cfg, states, inputs) && n < |states|
    ensures states[n].rf == CountersAfter(cfg, states[n].clk)
    decreases n
  {
    if n == 0 {
      CountersStart(cfg, states, inputs);
    } else {
      CountersFollowClock(cfg, states, inputs, n - 1);
      CountersLeadOn(cfg, states, inputs, n);
    }
  }

  lemma CountersStart(cfg: Config, states: seq<State>, inputs: seq<Input>)
    requires Behaviour(cfg, states, inputs)
    ensures states[0].rf == CountersAfter(cfg, states[0].clk)
  {
  }

  lemma CountersLeadOn(cfg: Config, states: seq<State>, inputs: seq<Input>, n: nat)
    requires Behaviour(cfg, states, inputs) && 0 < n < |states| && states[n - 1].rf == CountersAfter(cfg, states[n - 1].clk)
    ensures states[n].rf == CountersAfter(cfg, states[n].clk)
  {
    BehaviourKeepsInv(cfg, states, inputs, n - 1);
    InvLeadsCounters(cfg, states, inputs, n);
  }

  lemma InvLeadsCounters(cfg: Config, states: seq<State>, inputs: seq<Input>, n: nat)
    requires Behaviour(cfg, states, inputs) && 0 < n < |states|
    requires Inv(cfg, states[n - 1]) && states[n - 1].rf == CountersAfter(cfg, states[n - 1].clk)
    ensures states[n].rf == CountersAfter(cfg, states[n].clk)
  {
    assert LeadsAt(cfg, states, inputs, n - 1);
    StepMovesCounters(cfg, states[n - 1], inputs[n - 1], states[n]);
  }

  /** In a run with staggered rank refresh, every tick at a positive multiple of tREFI / ranks queues
      the refresh of the next rank, and no other tick queues one. */
  lemma RankIsQueued(cfg: Config, states: seq<State>, inputs: seq<Input>, n: nat)
    requires Behaviour(cfg, states, inputs) && n < |states| && cfg.refreshPolicy.RankStaggered?
    ensures Shaped(cfg, states[n]) && cfg.ranks > 0 && cfg.tREFI / cfg.ranks > 0
    ensures var s, p := states[n], cfg.tREFI / cfg.ranks;
            var queued := if s.clk > 0 && s.clk % p == 0 then [RefreshRankCommand((s.clk / p - 1) % cfg.ranks)] else [];
            RefreshPhase(cfg, s).ch.refreshQ == s.ch.refreshQ + queued
  {
    BehaviourKeepsInv(cfg, states, inputs, n);
    CountersFollowClock(cfg, states, inputs, n);
    TickInserts(cfg, states[n].clk, cfg.tREFI / cfg.ranks);
  }

  /** Each rank is inserted at least every ranks * (tREFI / ranks) ticks. */
  lemma RankEvery(cfg: Config, rank: nat, t: nat) returns (u: nat)
    requires Configured(cfg) && cfg.refreshPolicy.RankStaggered? && rank < cfg.ranks && t > 0
    ensures t <= u < t + cfg.ranks * (cfg.tREFI / cfg.ranks)
    ensures Inserted(cfg, CountersAfter(cfg, u)) == [RefreshRankCommand(rank)]
  {
    u := CoveredWithin(cfg, cfg.tREFI / cfg.ranks, RefreshRankCommand(rank), t);
  }

  /** Each bank is inserted at least once in as many tREFIb as there are banks. */
  lemma BankEvery(cfg: Config, b: BankId, t: nat) returns (u: nat)
    requires Configured(cfg) && cfg.refreshPolicy.BankStaggered? && cfg.HasBank(b) && t > 0
    ensures t <= u < t + cfg.ranks * cfg.banksPerGroup * cfg.bankgroups * cfg.tREFIb
    ensures Inserted(cfg, CountersAfter(cfg, u)) == [RefreshBankCommand(b)]
  {
    u := CoveredWithin(cfg, cfg.tREFIb, RefreshBankCommand(b), t);
  }
}
