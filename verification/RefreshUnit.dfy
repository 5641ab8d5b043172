/** The refresh generator (refresh.cc) and the order in which it covers the channel. */
module RefreshUnit {
  import opened Arithmetic
  import opened DramTypes
  import opened Channel

  datatype Counters = Counters(clk: nat, rank: nat, group: nat, bank: nat)

  const INITIAL_COUNTERS := Counters(0, 0, 0, 0)

  function Interval(cfg: Config): int {
    match cfg.refreshPolicy
    case RankSimultaneous => cfg.tREFI
    case BankStaggered => cfg.tREFIb
    case RankStaggered => if cfg.ranks == 0 then 0 else cfg.tREFI / cfg.ranks
  }

  /** The source divides by the interval; with a non-positive one it has no defined behaviour. */
  ghost predicate Configured(cfg: Config) {
    cfg.WellFormed() && Interval(cfg) > 0
  }

  predicate ValidCounters(cfg: Config, c: Counters) {
    c.rank < cfg.ranks && c.group < cfg.bankgroups && c.bank < cfg.banksPerGroup
  }

  /** The refresh that the counters ask for. The simultaneous policy stops at the first rank
      that is not in self-refresh, which is rank 0. */
  function Wanted(cfg: Config, c: Counters): Command {
    match cfg.refreshPolicy
    case RankSimultaneous => RefreshRankCommand(0)
    case RankStaggered => RefreshRankCommand(c.rank)
    case BankStaggered => RefreshBankCommand(BankId(c.rank, c.group, c.bank))
  }

  function Successor(cfg: Config, c: Counters): Counters
    requires ValidCounters(cfg, c)
  {
    match cfg.refreshPolicy
    case RankSimultaneous => c
    case RankStaggered => c.(rank := (c.rank + 1) % cfg.ranks)
    case BankStaggered =>
      var group := (c.group + 1) % cfg.bankgroups;
      var bank := if group == 0 then (c.bank + 1) % cfg.banksPerGroup else c.bank;
      var rank := if group == 0 && bank == 0 then (c.rank + 1) % cfg.ranks else c.rank;
      c.(group := group, bank := bank, rank := rank)
  }

  predicate Due(cfg: Config, c: Counters)
    requires Interval(cfg) > 0
  {
    c.clk % Interval(cfg) == 0 && c.clk > 0
  }

  function Tick(cfg: Config, c: Counters): (r: Counters)
    requires Configured(cfg) && ValidCounters(cfg, c)
    ensures ValidCounters(cfg, r)
  {
    var moved := if Due(cfg, c) then Successor(cfg, c) else c;
    moved.(clk := c.clk + 1)
  }

  /** What a tick appends to the channel's refresh queue. */
  function Inserted(cfg: Config, c: Counters): seq<Command>
    requires Interval(cfg) > 0
  {
    if Due(cfg, c) then [Wanted(cfg, c)] else []
  }

  // ---------------------------------------------------------------- coverage

  /** The n-th refresh ever inserted, read off the digits of n. */
  function Target(cfg: Config, n: nat): Command
    requires cfg.WellFormed()
  {
    match cfg.refreshPolicy
    case RankSimultaneous => RefreshRankCommand(0)
    case RankStaggered => RefreshRankCommand(n % cfg.ranks)
    case BankStaggered =>
      RefreshBankCommand(BankId((n / cfg.bankgroups / cfg.banksPerGroup) % cfg.ranks, n % cfg.bankgroups, (n / cfg.bankgroups) % cfg.banksPerGroup))
  }

  /** The counters after `n` insertions, read off the digits of n. */
  function DigitCounters(cfg: Config, n: nat, clk: nat): Counters
    requires cfg.WellFormed()
  {
    match cfg.refreshPolicy
    case RankSimultaneous => Counters(clk, 0, 0, 0)
    case RankStaggered => Counters(clk, n % cfg.ranks, 0, 0)
    case BankStaggered =>
      Counters(clk, (n / cfg.bankgroups / cfg.banksPerGroup) % cfg.ranks, n % cfg.bankgroups, (n / cfg.bankgroups) % cfg.banksPerGroup)
  }

  /** Adding one carries into the next digit exactly when the low digit overflows. */
  lemma Carry(n: nat, radix: nat)
    requires radix > 0
    ensures (n + 1) % radix == (n % radix + 1) % radix
    ensures (n + 1) / radix == if (n % radix + 1) % radix == 0 then n / radix + 1 else n / radix
  {
    var hi, lo := n / radix, n % radix;
    assert n == hi * radix + lo;
    if lo + 1 < radix {
      Digits(hi, lo + 1, radix);
      Digits(0, lo + 1, radix);
    } else {
      Distribute(hi, 1, radix);
      Digits(hi + 1, 0, radix);
      Digits(1, 0, radix);
    }
  }

  lemma IterateIsSuccessor(cfg: Config, n: nat, clk: nat)
    requires cfg.WellFormed()
    ensures ValidCounters(cfg, DigitCounters(cfg, n, clk))
    ensures Successor(cfg, DigitCounters(cfg, n, clk)) == DigitCounters(cfg, n + 1, clk)
  {
    match cfg.refreshPolicy {
      case RankSimultaneous =>
      case RankStaggered =>
        Carry(n, cfg.ranks);
      case BankStaggered =>
        CarryThrice(n, cfg.bankgroups, cfg.banksPerGroup, cfg.ranks);
    }
  }

  /** The carry chain through three digits. */
  lemma CarryThrice(n: nat, g: nat, b: nat, r: nat)
    requires g > 0 && b > 0 && r > 0
    ensures (n + 1) % g == (n % g + 1) % g
    ensures ((n + 1) / g) % b == if (n + 1) % g == 0 then ((n / g) % b + 1) % b else (n / g) % b
    ensures ((n + 1) / g / b) % r == if (n + 1) % g == 0 && ((n + 1) / g) % b == 0
                                     then ((n / g / b) % r + 1) % r else (n / g / b) % r
  {
    Carry(n, g);
    var q, q' := n / g, (n + 1) / g;
    if (n + 1) % g == 0 {
      assert q' == q + 1;
      Carry(q, b);
      Carry(q / b, r);
    } else {
      assert q' == q;
    }
  }

  /** The counters after `t` ticks, and everything inserted on the way. */
  function CountersAfter(cfg: Config, t: nat): (c: Counters)
    requires Configured(cfg)
    ensures ValidCounters(cfg, c)
  {
    if t == 0 then INITIAL_COUNTERS else Tick(cfg, CountersAfter(cfg, t - 1))
  }

  function InsertedBy(cfg: Config, t: nat): seq<Command>
    requires Configured(cfg)
  {
    if t == 0 then [] else InsertedBy(cfg, t - 1) + Inserted(cfg, CountersAfter(cfg, t - 1))
  }

  /** How many insertions `t` ticks make: one at every positive multiple of the interval. */
  function InsertionCount(cfg: Config, t: nat): nat
    requires Configured(cfg)
  {
    if t == 0 then 0 else (t - 1) / Interval(cfg)
  }

  /** For every policy and every number of ticks, the counters are the mixed-radix digits of the
      number of insertions, and the inserted refreshes are exactly the targets in order. */
  lemma {:induction false} InsertionsFollowDigits(cfg: Config, t: nat)
    requires Configured(cfg)
    ensures CountersAfter(cfg, t) == DigitCounters(cfg, InsertionCount(cfg, t), t)
    ensures |InsertedBy(cfg, t)| == InsertionCount(cfg, t)
    ensures forall i :: 0 <= i < |InsertedBy(cfg, t)| ==> InsertedBy(cfg, t)[i] == Target(cfg, i)
  {
    if t == 0 {
      ZeroDigits(cfg);
    } else if t == 1 {
      InsertionsFollowDigits(cfg, 0);
      Digits(0, 0, Interval(cfg));
    } else {
      InsertionsFollowDigits(cfg, t - 1);
      var n := InsertionCount(cfg, t - 1);
      IterateIsSuccessor(cfg, n, t - 1);
      Carry(t - 2, Interval(cfg));
    }
  }

  lemma ZeroDigits(cfg: Config)
    requires cfg.WellFormed()
    ensures DigitCounters(cfg, 0, 0) == INITIAL_COUNTERS
  {
  }

  /** How many insertions make one full round. */
  function RoundLength(cfg: Config): nat {
    match cfg.refreshPolicy
    case RankSimultaneous => 1
    case RankStaggered => cfg.ranks
    case BankStaggered => cfg.ranks * cfg.banksPerGroup * cfg.bankgroups
  }

  /** The refreshes a staggered round has to contain. */
  predicate InRound(cfg: Config, cmd: Command) {
    match cfg.refreshPolicy
    case RankSimultaneous => cmd == RefreshRankCommand(0)
    case RankStaggered => 0 <= cmd.addr.rank < cfg.ranks && cmd == RefreshRankCommand(cmd.addr.rank)
    case BankStaggered => cfg.HasBank(cmd.Bank()) && cmd == RefreshBankCommand(cmd.Bank())
  }

  /** Position of a refresh within its round. */
  function Place(cfg: Config, cmd: Command): int {
    match cfg.refreshPolicy
    case RankSimultaneous => 0
    case RankStaggered => cmd.addr.rank
    case BankStaggered => (cmd.addr.rank * cfg.banksPerGroup + cmd.addr.bank) * cfg.bankgroups + cmd.addr.bankgroup
  }

  /** In every round each rank, or each bank, is refreshed exactly once: its place is the only
      index of the round that targets it. */
  lemma RoundCoversOnce(cfg: Config, round: nat, cmd: Command, i: nat)
    requires cfg.WellFormed() && InRound(cfg, cmd)
    requires i < RoundLength(cfg)
    ensures 0 <= Place(cfg, cmd) < RoundLength(cfg)
    ensures Target(cfg, round * RoundLength(cfg) + i) == cmd <==> i == Place(cfg, cmd)
  {
    match cfg.refreshPolicy {
      case RankSimultaneous =>
      case RankStaggered =>
        Digits(round, i, cfg.ranks);
      case BankStaggered =>
        BankRound(cfg, round, i);
        BankPlace(cfg.bankgroups, cfg.banksPerGroup, cfg.ranks, i, cmd.Bank());
    }
  }

  /** Reading a number's digits back gives the number, and only that number has them. */
  lemma BankPlace(g: nat, b: nat, r: nat, i: nat, id: BankId)
    requires g > 0 && b > 0
    requires 0 <= id.rank < r && 0 <= id.group < g && 0 <= id.bank < b
    ensures 0 <= (id.rank * b + id.bank) * g + id.group < r * b * g
    ensures BankId(i / g / b, i % g, (i / g) % b) == id <==> i == (id.rank * b + id.bank) * g + id.group
  {
    var rest := id.rank * b + id.bank;
    DigitBelow(id.rank, r, id.bank, b);
    DigitBelow(rest, r * b, id.group, g);
    Digits(rest, id.group, g);
    Digits(id.rank, id.bank, b);
    assert i == (i / g) * g + i % g;
    assert i / g == (i / g / b) * b + (i / g) % b;
  }

  /** Within a bank-level round the digits of the index name the bank directly. */
  lemma BankRound(cfg: Config, round: nat, i: nat)
    requires cfg.WellFormed() && cfg.refreshPolicy.BankStaggered?
    requires i < RoundLength(cfg)
    ensures Target(cfg, round * RoundLength(cfg) + i)
         == RefreshBankCommand(BankId(i / cfg.bankgroups / cfg.banksPerGroup, i % cfg.bankgroups, (i / cfg.bankgroups) % cfg.banksPerGroup))
  {
    var g, b, r := cfg.bankgroups, cfg.banksPerGroup, cfg.ranks;
    var n := round * RoundLength(cfg) + i;
    var rest := i / g;
    assert i == rest * g + i % g;
    assert round * RoundLength(cfg) == round * (r * b) * g by { MulAssociative(round, r * b, g); }
    Distribute(round * (r * b), rest, g);
    assert n == (round * (r * b) + rest) * g + i % g;
    Digits(round * (r * b) + rest, i % g, g);
    var rank := rest / b;
    assert rest == rank * b + rest % b;
    MulAssociative(round, r, b);
    Distribute(round * r, rank, b);
    Digits(round * r + rank, rest % b, b);
    QuotientBelow(i, r * b, g);
    QuotientBelow(rest, r, b);
    Digits(round, rank, r);
  }

  lemma MulAssociative(a: int, b: int, c: int)
    ensures a * (b * c) == a * b * c
  {
  }

  lemma QuotientBelow(n: nat, hi: nat, radix: nat)
    requires radix > 0 && n < hi * radix
    ensures n / radix < hi
  {
  }

  // ---------------------------------------------------------------- the class

  class Refresher {
    const cfg: Config
    const channel: ChannelState
    const interval: int
    var clk: nat
    var nextRank: nat
    var nextGroup: nat
    var nextBank: nat

    ghost function Abs(): Counters
      reads this
    {
      Counters(clk, nextRank, nextGroup, nextBank)
    }

    ghost predicate Valid()
      reads this
    {
      channel.cfg == cfg && Configured(cfg) && interval == Interval(cfg) && ValidCounters(cfg, Abs())
    }

    constructor (cfg: Config, channel: ChannelState)
      requires channel.cfg == cfg && Configured(cfg)
      ensures this.cfg == cfg && this.channel == channel && Valid()
      ensures Abs() == INITIAL_COUNTERS
    {
      this.cfg := cfg;
      this.channel := channel;
      interval := Interval(cfg);
      clk, nextRank, nextGroup, nextBank := 0, 0, 0, 0;
    }

    method ClockTick()
      requires Valid()
      modifies this, channel`refreshQ
      ensures Valid()
      ensures Abs() == Tick(cfg, old(Abs()))
      ensures channel.refreshQ == old(channel.refreshQ) + Inserted(cfg, old(Abs()))
    {
      if clk % interval == 0 && clk > 0 {
        InsertRefresh();
      }
      clk := clk + 1;
    }

    method InsertRefresh()
      requires Valid()
      modifies this`nextRank, this`nextGroup, this`nextBank, channel`refreshQ
      ensures Abs() == Successor(cfg, old(Abs()))
      ensures channel.refreshQ == old(channel.refreshQ) + [Wanted(cfg, old(Abs()))]
    {
      match cfg.refreshPolicy {
        case RankSimultaneous =>
          channel.RankNeedRefresh(0, true);
        case RankStaggered =>
          channel.RankNeedRefresh(nextRank, true);
          IterateNext();
        case BankStaggered =>
          channel.BankNeedRefresh(BankId(nextRank, nextGroup, nextBank), true);
          IterateNext();
      }
    }

    method IterateNext()
      requires Valid()
      modifies this`nextRank, this`nextGroup, this`nextBank
      ensures Abs() == Successor(cfg, old(Abs()))
    {
      match cfg.refreshPolicy {
        case RankSimultaneous =>
        case RankStaggered =>
          nextRank := (nextRank + 1) % cfg.ranks;
        case BankStaggered =>
          nextGroup := (nextGroup + 1) % cfg.bankgroups;
          if nextGroup == 0 {
            nextBank := (nextBank + 1) % cfg.banksPerGroup;
            if nextBank == 0 {
              nextRank := (nextRank + 1) % cfg.ranks;
            }
          }
      }
    }
  }
}
