/** The timing rules that every run keeps, in the configuration's own parameters: the minimal
    distance of two commands by their kinds and the place of their banks. */
module TimingLaws {
  import opened Basics
  import opened DramTypes
  import opened Timing
  import opened Bank
  import opened Channel
  import opened History
  import opened Controller
  import opened Runs
  import opened ControllerTheorems

  // ---------------------------------------------------------------- the rules

  /** The commands that need their bank closed. */
  predicate NeedsClosed(kind: CommandType) {
    kind.Activate? || kind.Refresh? || kind.RefreshBank? || kind.SrefEnter?
  }

  predicate HasPrechargeGap(cfg: Config) {
    cfg.protocol in {GDDR5, GDDR5X, GDDR6, LPDDR4}
  }

  predicate SplitActivation(cfg: Config) {
    cfg.protocol in {GDDR5, GDDR5X, GDDR6, HBM, HBM2}
  }

  /** Rules between a command and a later one at the same bank. */
  predicate BankRule(cfg: Config, first: CommandType, next: CommandType, cycles: int) {
    // a row cycle: activation, access, precharge, activation
    || (first.Activate? && next.Activate? && cycles == cfg.tRAS + cfg.tRP)
    || (first.Activate? && next.Precharge? && cycles == cfg.tRAS)
    || (first.Activate? && next.IsRead() && cycles == if SplitActivation(cfg) then cfg.tRCDRD else cfg.tRCD - cfg.AL)
    || (first.Activate? && next.IsWrite() && cycles == if SplitActivation(cfg) then cfg.tRCDWR else cfg.tRCD - cfg.AL)
    || (first.Read? && next.Precharge? && cycles == cfg.AL + cfg.tRTP)
    || (first.Write? && next.Precharge? && cycles == cfg.AL + cfg.CWL + cfg.burstCycle + cfg.tWR)
    || (first.Precharge? && NeedsClosed(next) && cycles == cfg.tRP)
    // auto-precharging accesses
    || (first.ReadPrecharge? && next.Activate? && cycles == cfg.AL + cfg.burstCycle + cfg.tRTP + cfg.tRP)
    || (first.ReadPrecharge? && NeedsClosed(next) && !next.Activate? && cycles == cfg.AL + cfg.tRTP + cfg.tRP)
    || (first.WritePrecharge? && NeedsClosed(next) && cycles == cfg.AL + cfg.CWL + cfg.burstCycle + cfg.tWR + cfg.tRP)
    // data bus, while the row stays open
    || (first in {Read, Write} && GroupRule(cfg, first, next, cycles))
  }

  /** Rules on the data bus between banks of one bank group. */
  predicate GroupRule(cfg: Config, first: CommandType, next: CommandType, cycles: int) {
    var tCCD := if cfg.bankgroups == 1 then cfg.tCCDS else cfg.tCCDL;
    var tWTR := if cfg.bankgroups == 1 then cfg.tWTRS else cfg.tWTRL;
    || (first.IsRead() && next.IsRead() && cycles == Max(cfg.burstCycle, tCCD))
    || (first.IsWrite() && next.IsWrite() && cycles == Max(cfg.burstCycle, tCCD))
    || (first.IsRead() && next.IsWrite() && cycles == cfg.CL + cfg.burstCycle - cfg.CWL + cfg.tRTRS)
    || (first.IsWrite() && next.IsRead() && cycles == cfg.AL + cfg.CWL + cfg.burstCycle + tWTR)
  }

  /** Rules on the data bus between bank groups of one rank. */
  predicate RankRule(cfg: Config, first: CommandType, next: CommandType, cycles: int) {
    || (first.IsRead() && next.IsRead() && cycles == Max(cfg.burstCycle, cfg.tCCDS))
    || (first.IsWrite() && next.IsWrite() && cycles == Max(cfg.burstCycle, cfg.tCCDS))
    || (first.IsRead() && next.IsWrite() && cycles == cfg.CL + cfg.burstCycle - cfg.CWL + cfg.tRTRS)
    || (first.IsWrite() && next.IsRead() && cycles == cfg.AL + cfg.CWL + cfg.burstCycle + cfg.tWTRS)
  }

  /** Rules on the data bus between ranks. */
  predicate ChannelRule(cfg: Config, first: CommandType, next: CommandType, cycles: int) {
    || (first.IsRead() && next.IsRead() && cycles == cfg.burstCycle + cfg.tRTRS)
    || (first.IsWrite() && next.IsWrite() && cycles == cfg.burstCycle)
    || (first.IsRead() && next.IsWrite() && cycles == cfg.CL + cfg.burstCycle - cfg.CWL + cfg.tRTRS)
    || (first.IsWrite() && next.IsRead() && cycles == cfg.CWL + cfg.burstCycle - cfg.CL + cfg.tRTRS)
  }

  /** Rules between other banks of one rank that are not about data. */
  predicate PowerRule(cfg: Config, sameGroup: bool, first: CommandType, next: CommandType, cycles: int) {
    || (first.Activate? && next.Activate? && cycles == if sameGroup && cfg.bankgroups != 1 then cfg.tRRDL else cfg.tRRDS)
    || (first.Activate? && next.RefreshBank? && cycles == cfg.tRAS + cfg.tRP)
    || (first.Precharge? && next.Precharge? && HasPrechargeGap(cfg) && cycles == cfg.tPPD)
    || (first.RefreshBank? && next.Activate? && cycles == cfg.tRFC)
    || (first.RefreshBank? && next.RefreshBank? && cycles == cfg.tREFI)
  }

  /** Rules after a command to a whole rank. */
  predicate WholeRankRule(cfg: Config, first: CommandType, next: CommandType, cycles: int) {
    || (first.Refresh? && next in {Activate, Refresh, SrefEnter} && cycles == cfg.tRFC)
    || (first.SrefEnter? && next.SrefExit? && cycles == cfg.tCKESR)
    || (first.SrefExit? && next in {Activate, Refresh, RefreshBank, SrefEnter} && cycles == cfg.tXS)
  }

  /** `first` makes bank `b` wait `cycles` cycles for a `next` command. */
  predicate Rule(cfg: Config, first: Command, b: BankId, next: CommandType, cycles: int) {
    var kind := first.kind;
    if kind.IsRankCommand() then b.rank == first.addr.rank && WholeRankRule(cfg, kind, next, cycles)
    else if b.rank != first.addr.rank then ChannelRule(cfg, kind, next, cycles)
    else if b == BankId(first.addr.rank, first.addr.bankgroup, first.addr.bank) then BankRule(cfg, kind, next, cycles)
    else if b.group == first.addr.bankgroup then GroupRule(cfg, kind, next, cycles) || PowerRule(cfg, true, kind, next, cycles)
    else RankRule(cfg, kind, next, cycles) || PowerRule(cfg, false, kind, next, cycles)
  }

  // ---------------------------------------------------------------- the tables are the rules

  lemma ColumnGapsAre(toRead: int, toWrite: int, next: CommandType, cycles: int)
    ensures Gap(next, cycles) in ColumnGaps(toRead, toWrite)
       <==> (next.IsRead() && cycles == toRead) || (next.IsWrite() && cycles == toWrite)
  {
    var gaps := ColumnGaps(toRead, toWrite);
    assert gaps[0] == Gap(Read, toRead) && gaps[1] == Gap(Write, toWrite);
    assert gaps[2] == Gap(ReadPrecharge, toRead) && gaps[3] == Gap(WritePrecharge, toWrite);
  }

  lemma ClosedGapsAre(toActivate: int, toRefresh: int, next: CommandType, cycles: int)
    ensures Gap(next, cycles) in ClosedGaps(toActivate, toRefresh)
       <==> NeedsClosed(next) && cycles == if next.Activate? then toActivate else toRefresh
  {
    var gaps := ClosedGaps(toActivate, toRefresh);
    assert gaps[0] == Gap(Activate, toActivate) && gaps[1] == Gap(Refresh, toRefresh);
    assert gaps[2] == Gap(RefreshBank, toRefresh) && gaps[3] == Gap(SrefEnter, toRefresh);
  }

  lemma SameBankIff(cfg: Config, first: CommandType, next: CommandType, cycles: int)
    ensures !first.IsRankCommand() ==> (Gap(next, cycles) in SameBank(cfg, first) <==> BankRule(cfg, first, next, cycles))
  {
    match first {
      case Read => ColumnGapsAre(ReadToReadL(cfg), ReadToWrite(cfg), next, cycles);
      case Write => ColumnGapsAre(WriteToReadL(cfg), ReadToReadL(cfg), next, cycles);
      case ReadPrecharge => ClosedGapsAre(ReadPrechargeToActivate(cfg), ReadToActivate(cfg), next, cycles);
      case WritePrecharge => ClosedGapsAre(WriteToActivate(cfg), WriteToActivate(cfg), next, cycles);
      case Activate => ColumnGapsAre(ActivateToRead(cfg), ActivateToWrite(cfg), next, cycles);
      case Precharge => ClosedGapsAre(cfg.tRP, cfg.tRP, next, cycles);
      case _ =>
    }
  }

  lemma SameGroupIff(cfg: Config, first: CommandType, next: CommandType, cycles: int)
    ensures !first.IsRankCommand() ==>
              (Gap(next, cycles) in OtherBanksSameBankgroup(cfg, first)
               <==> GroupRule(cfg, first, next, cycles) || PowerRule(cfg, true, first, next, cycles))
  {
    if first.IsRead() {
      ColumnGapsAre(ReadToReadL(cfg), ReadToWrite(cfg), next, cycles);
    } else if first.IsWrite() {
      ColumnGapsAre(WriteToReadL(cfg), ReadToReadL(cfg), next, cycles);
    }
  }

  lemma SameRankIff(cfg: Config, first: CommandType, next: CommandType, cycles: int)
    ensures !first.IsRankCommand() ==>
              (Gap(next, cycles) in OtherBankgroupsSameRank(cfg, first)
               <==> RankRule(cfg, first, next, cycles) || PowerRule(cfg, false, first, next, cycles))
  {
    if first.IsRead() {
      ColumnGapsAre(ReadToReadS(cfg), ReadToWrite(cfg), next, cycles);
    } else if first.IsWrite() {
      ColumnGapsAre(WriteToReadS(cfg), ReadToReadS(cfg), next, cycles);
    }
  }

  lemma OtherRanksIff(cfg: Config, first: CommandType, next: CommandType, cycles: int)
    ensures !first.IsRankCommand() ==>
              (Gap(next, cycles) in OtherRanks(cfg, first) <==> ChannelRule(cfg, first, next, cycles))
  {
    if first.IsRead() {
      ColumnGapsAre(ReadToReadO(cfg), ReadToWriteO(cfg), next, cycles);
    } else if first.IsWrite() {
      ColumnGapsAre(WriteToReadO(cfg), WriteToWriteO(cfg), next, cycles);
    }
  }

  lemma WholeRankIff(cfg: Config, first: CommandType, next: CommandType, cycles: int)
    ensures first.IsRankCommand() ==>
              (Gap(next, cycles) in SameRank(cfg, first) <==> WholeRankRule(cfg, first, next, cycles))
  {
  }

  /** The tables, dispatched to a bank, are exactly the rules. */
  lemma TablesAreRules(cfg: Config, first: Command, b: BankId, next: CommandType, cycles: int)
    ensures Gap(next, cycles) in Constraints(cfg, first, b) <==> Rule(cfg, first, b, next, cycles)
  {
    SameBankIff(cfg, first.kind, next, cycles);
    SameGroupIff(cfg, first.kind, next, cycles);
    SameRankIff(cfg, first.kind, next, cycles);
    OtherRanksIff(cfg, first.kind, next, cycles);
    WholeRankIff(cfg, first.kind, next, cycles);
  }

  // ---------------------------------------------------------------- runs keep the rules

  /** `cmd` waits for the table of bank `b`: its own bank, or all banks of its rank. */
  predicate Waits(cmd: Command, b: BankId) {
    if cmd.kind in {Refresh, SrefEnter, SrefExit} then b.rank == cmd.addr.rank
    else b == BankId(cmd.addr.rank, cmd.addr.bankgroup, cmd.addr.bank)
  }

  /** Every command of a run keeps every rule towards every earlier one. */
  lemma EveryRuleIsKept(cfg: Config, states: seq<State>, inputs: seq<Input>, n: nat, i: nat, j: nat, b: BankId, cycles: int)
    requires Behaviour(cfg, states, inputs) && n < |states|
    requires i < j < |states[n].shadow.history| && cfg.HasBank(b)
    requires var h := states[n].shadow.history; Waits(h[j].cmd, b) && Rule(cfg, h[i].cmd, b, h[j].cmd.kind, cycles)
    ensures var h := states[n].shadow.history;
            h[j].clk >= h[i].clk + cycles
  {
    var h := states[n].shadow.history;
    TablesAreRules(cfg, h[i].cmd, b, h[j].cmd.kind, cycles);
    EveryGapIsKept(cfg, states, inputs, n, i, j, b, Gap(h[j].cmd.kind, cycles));
  }

  /** Every table entry of a run is the latest deadline of the rules: none is missed, and an entry
      that is not zero is the deadline of one. */
  lemma EntryIsLatestRule(cfg: Config, states: seq<State>, inputs: seq<Input>, n: nat, b: BankId, kind: CommandType)
    requires Behaviour(cfg, states, inputs) && n < |states| && cfg.HasBank(b)
    ensures b in states[n].ch.banks
    ensures var h, entry := states[n].shadow.history, states[n].ch.banks[b].timing[Slot(kind)];
            && (forall i: nat, cycles :: i < |h| && Rule(cfg, h[i].cmd, b, kind, cycles) ==> Deadline(h[i].clk, cycles) <= entry)
            && (entry != 0 ==>
                  exists i: nat, cycles :: i < |h| && Rule(cfg, h[i].cmd, b, kind, cycles) && Deadline(h[i].clk, cycles) == entry)
  {
    TableEntryIsMaximum(cfg, states, inputs, n, b, kind);
    var h, entry := states[n].shadow.history, states[n].ch.banks[b].timing[Slot(kind)];
    forall i: nat, cycles | i < |h| && Rule(cfg, h[i].cmd, b, kind, cycles)
      ensures Deadline(h[i].clk, cycles) <= entry
    {
      TablesAreRules(cfg, h[i].cmd, b, kind, cycles);
      assert Imposes(cfg, h, i, b, kind, Gap(kind, cycles));
    }
    if entry != 0 {
      var i: nat, g :| i < |h| && Imposes(cfg, h, i, b, kind, g) && Deadline(h[i].clk, g.cycles) == entry;
      TablesAreRules(cfg, h[i].cmd, b, kind, g.cycles);
    }
  }

  // ---------------------------------------------------------------- the rules by name

  /** Positions `i` and `j` of the history of a run's n-th state, in this order. */
  ghost predicate InRun(cfg: Config, states: seq<State>, inputs: seq<Input>, n: nat, i: nat, j: nat) {
    Behaviour(cfg, states, inputs) && n < |states| && i < j < |states[n].shadow.history|
  }

  predicate OneRank(a: Command, b: Command) {
    a.addr.rank == b.addr.rank
  }

  predicate OneGroup(a: Command, b: Command) {
    OneRank(a, b) && a.addr.bankgroup == b.addr.bankgroup
  }

  predicate OneBank(a: Command, b: Command) {
    OneGroup(a, b) && a.addr.bank == b.addr.bank
  }

  lemma HasItsBank(cfg: Config, states: seq<State>, inputs: seq<Input>, n: nat, i: nat)
    requires Behaviour(cfg, states, inputs) && n < |states| && i < |states[n].shadow.history|
    ensures var c := states[n].shadow.history[i].cmd; !c.kind.IsRankCommand() ==> cfg.HasBank(c.Bank())
  {
    BehaviourKeepsInv(cfg, states, inputs, n);
    assert Addressed(cfg, states[n].shadow.history[i].cmd);
  }

  /** A rule towards a command at one bank. */
  lemma BankKeeps(cfg: Config, states: seq<State>, inputs: seq<Input>, n: nat, i: nat, j: nat, cycles: int)
    requires InRun(cfg, states, inputs, n, i, j) && !states[n].shadow.history[j].cmd.kind.IsRankCommand()
    requires var h := states[n].shadow.history; Rule(cfg, h[i].cmd, h[j].cmd.Bank(), h[j].cmd.kind, cycles)
    ensures var h := states[n].shadow.history; h[j].clk - h[i].clk >= cycles
  {
    HasItsBank(cfg, states, inputs, n, j);
    EveryRuleIsKept(cfg, states, inputs, n, i, j, states[n].shadow.history[j].cmd.Bank(), cycles);
  }

  /** A rule from a command at one bank towards a refresh of its rank. */
  lemma RankKeeps(cfg: Config, states: seq<State>, inputs: seq<Input>, n: nat, i: nat, j: nat, cycles: int)
    requires InRun(cfg, states, inputs, n, i, j)
    requires var a, b := states[n].shadow.history[i].cmd, states[n].shadow.history[j].cmd;
             !a.kind.IsRankCommand() && b.kind.Refresh? && OneRank(a, b) && BankRule(cfg, a.kind, Refresh, cycles)
    ensures var h := states[n].shadow.history; h[j].clk - h[i].clk >= cycles
  {
    HasItsBank(cfg, states, inputs, n, i);
    EveryRuleIsKept(cfg, states, inputs, n, i, j, states[n].shadow.history[i].cmd.Bank(), cycles);
  }

  /** The rules of one bank, each by its parameters. */
  lemma NamedRow(cfg: Config, a: CommandType, b: CommandType, gap: int)
    requires forall cycles :: BankRule(cfg, a, b, cycles) ==> gap >= cycles
    ensures a.Precharge? && b.Activate? ==> gap >= cfg.tRP
    ensures a.Activate? && b.Precharge? ==> gap >= cfg.tRAS
    ensures a.Activate? && b.Activate? ==> gap >= cfg.tRAS + cfg.tRP
    ensures a.Activate? && b.IsRead() ==> gap >= if SplitActivation(cfg) then cfg.tRCDRD else cfg.tRCD - cfg.AL
    ensures a.Activate? && b.IsWrite() ==> gap >= if SplitActivation(cfg) then cfg.tRCDWR else cfg.tRCD - cfg.AL
    ensures a.Read? && b.Precharge? ==> gap >= cfg.AL + cfg.tRTP
    ensures a.Write? && b.Precharge? ==> gap >= cfg.AL + cfg.CWL + cfg.burstCycle + cfg.tWR
    ensures a.ReadPrecharge? && b.Activate? ==> gap >= cfg.AL + cfg.burstCycle + cfg.tRTP + cfg.tRP
    ensures a.WritePrecharge? && b.Activate? ==> gap >= cfg.AL + cfg.CWL + cfg.burstCycle + cfg.tWR + cfg.tRP
  {
    assert a.Precharge? && b.Activate? ==> BankRule(cfg, a, b, cfg.tRP);
    assert a.Activate? && b.Precharge? ==> BankRule(cfg, a, b, cfg.tRAS);
    assert a.Activate? && b.Activate? ==> BankRule(cfg, a, b, cfg.tRAS + cfg.tRP);
    assert a.Activate? && b.IsRead() ==> BankRule(cfg, a, b, if SplitActivation(cfg) then cfg.tRCDRD else cfg.tRCD - cfg.AL);
    assert a.Activate? && b.IsWrite() ==> BankRule(cfg, a, b, if SplitActivation(cfg) then cfg.tRCDWR else cfg.tRCD - cfg.AL);
    assert a.Read? && b.Precharge? ==> BankRule(cfg, a, b, cfg.AL + cfg.tRTP);
    assert a.Write? && b.Precharge? ==> BankRule(cfg, a, b, cfg.AL + cfg.CWL + cfg.burstCycle + cfg.tWR);
    assert a.ReadPrecharge? && b.Activate? ==> BankRule(cfg, a, b, cfg.AL + cfg.burstCycle + cfg.tRTP + cfg.tRP);
    assert a.WritePrecharge? && b.Activate? ==> BankRule(cfg, a, b, cfg.AL + cfg.CWL + cfg.burstCycle + cfg.tWR + cfg.tRP);
  }

  /** The row cycle of a bank: tRP, tRAS, tRC, tRCD, tRTP and tWR. */
  lemma RowTimings(cfg: Config, states: seq<State>, inputs: seq<Input>, n: nat, i: nat, j: nat)
    requires InRun(cfg, states, inputs, n, i, j)
    requires OneBank(states[n].shadow.history[i].cmd, states[n].shadow.history[j].cmd)
    ensures var h := states[n].shadow.history;
            var a, b, gap := h[i].cmd.kind, h[j].cmd.kind, h[j].clk - h[i].clk;
            && (a.Precharge? && b.Activate? ==> gap >= cfg.tRP)
            && (a.Activate? && b.Precharge? ==> gap >= cfg.tRAS)
            && (a.Activate? && b.Activate? ==> gap >= cfg.tRAS + cfg.tRP)
            && (a.Activate? && b.IsRead() ==> gap >= if SplitActivation(cfg) then cfg.tRCDRD else cfg.tRCD - cfg.AL)
            && (a.Activate? && b.IsWrite() ==> gap >= if SplitActivation(cfg) then cfg.tRCDWR else cfg.tRCD - cfg.AL)
            && (a.Read? && b.Precharge? ==> gap >= cfg.AL + cfg.tRTP)
            && (a.Write? && b.Precharge? ==> gap >= cfg.AL + cfg.CWL + cfg.burstCycle + cfg.tWR)
            && (a.ReadPrecharge? && b.Activate? ==> gap >= cfg.AL + cfg.burstCycle + cfg.tRTP + cfg.tRP)
            && (a.WritePrecharge? && b.Activate? ==> gap >= cfg.AL + cfg.CWL + cfg.burstCycle + cfg.tWR + cfg.tRP)
  {
    var h := states[n].shadow.history;
    var a, b := h[i].cmd.kind, h[j].cmd.kind;
    if !a.IsRankCommand() && !b.IsRankCommand() {
      forall cycles | BankRule(cfg, a, b, cycles)
        ensures h[j].clk - h[i].clk >= cycles
      {
        BankKeeps(cfg, states, inputs, n, i, j, cycles);
      }
      NamedRow(cfg, a, b, h[j].clk - h[i].clk);
    }
  }

  /** The rules between banks of a rank. */
  lemma NamedRank(cfg: Config, sameGroup: bool, a: CommandType, b: CommandType, gap: int)
    requires forall cycles :: PowerRule(cfg, sameGroup, a, b, cycles) ==> gap >= cycles
    ensures a.Activate? && b.Activate? && sameGroup && cfg.bankgroups != 1 ==> gap >= cfg.tRRDL
    ensures a.Activate? && b.Activate? && (sameGroup ==> cfg.bankgroups == 1) ==> gap >= cfg.tRRDS
    ensures a.Activate? && b.RefreshBank? ==> gap >= cfg.tRAS + cfg.tRP
    ensures a.Precharge? && b.Precharge? && HasPrechargeGap(cfg) ==> gap >= cfg.tPPD
    ensures a.RefreshBank? && b.Activate? ==> gap >= cfg.tRFC
    ensures a.RefreshBank? && b.RefreshBank? ==> gap >= cfg.tREFI
  {
    assert a.Activate? && b.Activate? && sameGroup && cfg.bankgroups != 1 ==> PowerRule(cfg, sameGroup, a, b, cfg.tRRDL);
    assert a.Activate? && b.Activate? && (sameGroup ==> cfg.bankgroups == 1) ==> PowerRule(cfg, sameGroup, a, b, cfg.tRRDS);
    assert a.Activate? && b.RefreshBank? ==> PowerRule(cfg, sameGroup, a, b, cfg.tRAS + cfg.tRP);
    assert a.Precharge? && b.Precharge? && HasPrechargeGap(cfg) ==> PowerRule(cfg, sameGroup, a, b, cfg.tPPD);
    assert a.RefreshBank? && b.Activate? ==> PowerRule(cfg, sameGroup, a, b, cfg.tRFC);
    assert a.RefreshBank? && b.RefreshBank? ==> PowerRule(cfg, sameGroup, a, b, cfg.tREFI);
  }

  /** Between banks of a rank: tRRD, tPPD, and what a REFRESH_BANK imposes on the other banks. */
  lemma RankTimings(cfg: Config, states: seq<State>, inputs: seq<Input>, n: nat, i: nat, j: nat)
    requires InRun(cfg, states, inputs, n, i, j)
    requires var a, b := states[n].shadow.history[i].cmd, states[n].shadow.history[j].cmd; OneRank(a, b) && !OneBank(a, b)
    ensures var h := states[n].shadow.history;
            var a, b, gap := h[i].cmd.kind, h[j].cmd.kind, h[j].clk - h[i].clk;
            && (a.Activate? && b.Activate? && OneGroup(h[i].cmd, h[j].cmd) && cfg.bankgroups != 1 ==> gap >= cfg.tRRDL)
            && (a.Activate? && b.Activate? && (OneGroup(h[i].cmd, h[j].cmd) ==> cfg.bankgroups == 1) ==> gap >= cfg.tRRDS)
            && (a.Activate? && b.RefreshBank? ==> gap >= cfg.tRAS + cfg.tRP)
            && (a.Precharge? && b.Precharge? && HasPrechargeGap(cfg) ==> gap >= cfg.tPPD)
            && (a.RefreshBank? && b.Activate? ==> gap >= cfg.tRFC)
            && (a.RefreshBank? && b.RefreshBank? ==> gap >= cfg.tREFI)
  {
    var h := states[n].shadow.history;
    var a, b := h[i].cmd.kind, h[j].cmd.kind;
    if !a.IsRankCommand() && !b.IsRankCommand() {
      forall cycles | PowerRule(cfg, OneGroup(h[i].cmd, h[j].cmd), a, b, cycles)
        ensures h[j].clk - h[i].clk >= cycles
      {
        BankKeeps(cfg, states, inputs, n, i, j, cycles);
      }
      NamedRank(cfg, OneGroup(h[i].cmd, h[j].cmd), a, b, h[j].clk - h[i].clk);
    }
  }

  /** The rules from closing a bank to its refresh. */
  lemma NamedClosed(cfg: Config, a: CommandType, b: CommandType, gap: int)
    requires b.IsRefresh()
    requires forall cycles :: BankRule(cfg, a, b, cycles) ==> gap >= cycles
    ensures a.Precharge? ==> gap >= cfg.tRP
    ensures a.ReadPrecharge? ==> gap >= cfg.AL + cfg.tRTP + cfg.tRP
    ensures a.WritePrecharge? ==> gap >= cfg.AL + cfg.CWL + cfg.burstCycle + cfg.tWR + cfg.tRP
  {
    assert a.Precharge? ==> BankRule(cfg, a, b, cfg.tRP);
    assert a.ReadPrecharge? ==> BankRule(cfg, a, b, cfg.AL + cfg.tRTP + cfg.tRP);
    assert a.WritePrecharge? ==> BankRule(cfg, a, b, cfg.AL + cfg.CWL + cfg.burstCycle + cfg.tWR + cfg.tRP);
  }

  /** Around refreshes: a rank is refreshed tRP after a precharge and the write recovery or tRTP
      before it, and is free again after tRFC. */
  lemma RefreshTimings(cfg: Config, states: seq<State>, inputs: seq<Input>, n: nat, i: nat, j: nat)
    requires InRun(cfg, states, inputs, n, i, j)
    requires OneRank(states[n].shadow.history[i].cmd, states[n].shadow.history[j].cmd)
    ensures var h := states[n].shadow.history;
            var a, b, gap := h[i].cmd.kind, h[j].cmd.kind, h[j].clk - h[i].clk;
            && (a.Precharge? && b.Refresh? ==> gap >= cfg.tRP)
            && (a.ReadPrecharge? && b.Refresh? ==> gap >= cfg.AL + cfg.tRTP + cfg.tRP)
            && (a.WritePrecharge? && b.Refresh? ==> gap >= cfg.AL + cfg.CWL + cfg.burstCycle + cfg.tWR + cfg.tRP)
            && (a.Refresh? && b.Activate? ==> gap >= cfg.tRFC)
            && (a.Refresh? && b.Refresh? ==> gap >= cfg.tRFC)
            && (b.RefreshBank? && OneBank(h[i].cmd, h[j].cmd) ==>
                  && (a.Precharge? ==> gap >= cfg.tRP)
                  && (a.ReadPrecharge? ==> gap >= cfg.AL + cfg.tRTP + cfg.tRP)
                  && (a.WritePrecharge? ==> gap >= cfg.AL + cfg.CWL + cfg.burstCycle + cfg.tWR + cfg.tRP))
  {
    var h := states[n].shadow.history;
    var a, b := h[i].cmd.kind, h[j].cmd.kind;
    if a.Refresh? {
      RefreshFrees(cfg, states, inputs, n, i, j);
    } else if !a.IsRankCommand() && b.Refresh? {
      forall cycles | BankRule(cfg, a, Refresh, cycles)
        ensures h[j].clk - h[i].clk >= cycles
      {
        RankKeeps(cfg, states, inputs, n, i, j, cycles);
      }
      NamedClosed(cfg, a, b, h[j].clk - h[i].clk);
    } else if !a.IsRankCommand() && b.RefreshBank? && OneBank(h[i].cmd, h[j].cmd) {
      forall cycles | BankRule(cfg, a, RefreshBank, cycles)
        ensures h[j].clk - h[i].clk >= cycles
      {
        BankKeeps(cfg, states, inputs, n, i, j, cycles);
      }
      NamedClosed(cfg, a, b, h[j].clk - h[i].clk);
    }
  }

  lemma RefreshFrees(cfg: Config, states: seq<State>, inputs: seq<Input>, n: nat, i: nat, j: nat)
    requires InRun(cfg, states, inputs, n, i, j)
    requires var a, b := states[n].shadow.history[i].cmd, states[n].shadow.history[j].cmd; OneRank(a, b) && a.kind.Refresh?
    ensures var h := states[n].shadow.history;
            h[j].cmd.kind.Activate? || h[j].cmd.kind.Refresh? ==> h[j].clk - h[i].clk >= cfg.tRFC
  {
    var h := states[n].shadow.history;
    if h[j].cmd.kind.Activate? {
      BankKeeps(cfg, states, inputs, n, i, j, cfg.tRFC);
    } else if h[j].cmd.kind.Refresh? {
      var b := SomeBank(cfg, states, inputs, n, j);
      EveryRuleIsKept(cfg, states, inputs, n, i, j, b, cfg.tRFC);
    }
  }

  /** A rank command names a rank of the geometry, which has a bank. */
  lemma SomeBank(cfg: Config, states: seq<State>, inputs: seq<Input>, n: nat, j: nat) returns (b: BankId)
    requires Behaviour(cfg, states, inputs) && n < |states| && j < |states[n].shadow.history|
    requires states[n].shadow.history[j].cmd.kind.IsRankCommand()
    ensures cfg.HasBank(b) && b.rank == states[n].shadow.history[j].cmd.addr.rank
  {
    BehaviourKeepsInv(cfg, states, inputs, n);
    assert Addressed(cfg, states[n].shadow.history[j].cmd);
    b := BankId(states[n].shadow.history[j].cmd.addr.rank, 0, 0);
  }

  /** How the banks of two commands are related, and the rules of the data bus for that relation. */
  predicate BusRule(cfg: Config, a: Command, b: Command, cycles: int) {
    if !OneRank(a, b) then ChannelRule(cfg, a.kind, b.kind, cycles)
    else if OneGroup(a, b) then GroupRule(cfg, a.kind, b.kind, cycles)
    else RankRule(cfg, a.kind, b.kind, cycles)
  }

  /** The distances on the data bus, by their parameters. */
  predicate BusSpaced(cfg: Config, a: Command, b: Command, gap: int) {
    var near := OneGroup(a, b) && cfg.bankgroups != 1;
    && (OneRank(a, b) && a.kind.IsRead() == b.kind.IsRead() ==> gap >= cfg.burstCycle && gap >= if near then cfg.tCCDL else cfg.tCCDS)
    && (OneRank(a, b) && a.kind.IsWrite() && b.kind.IsRead() ==>
          gap >= cfg.AL + cfg.CWL + cfg.burstCycle + if near then cfg.tWTRL else cfg.tWTRS)
    && (a.kind.IsRead() && b.kind.IsWrite() ==> gap >= cfg.CL + cfg.burstCycle - cfg.CWL + cfg.tRTRS)
    && (!OneRank(a, b) && a.kind.IsRead() && b.kind.IsRead() ==> gap >= cfg.burstCycle + cfg.tRTRS)
    && (!OneRank(a, b) && a.kind.IsWrite() && b.kind.IsWrite() ==> gap >= cfg.burstCycle)
    && (!OneRank(a, b) && a.kind.IsWrite() && b.kind.IsRead() ==> gap >= cfg.CWL + cfg.burstCycle - cfg.CL + cfg.tRTRS)
  }

  lemma NamedBus(cfg: Config, a: Command, b: Command, gap: int)
    requires a.kind.IsReadWrite() && b.kind.IsReadWrite()
    requires forall cycles :: BusRule(cfg, a, b, cycles) ==> gap >= cycles
    ensures BusSpaced(cfg, a, b, gap)
  {
    var near := OneGroup(a, b) && cfg.bankgroups != 1;
    var tCCD, tWTR := if near then cfg.tCCDL else cfg.tCCDS, if near then cfg.tWTRL else cfg.tWTRS;
    if a.kind.IsRead() && b.kind.IsWrite() {
      assert BusRule(cfg, a, b, cfg.CL + cfg.burstCycle - cfg.CWL + cfg.tRTRS);
    } else if OneRank(a, b) {
      assert BusRule(cfg, a, b, if a.kind.IsRead() == b.kind.IsRead() then Max(cfg.burstCycle, tCCD)
                     else cfg.AL + cfg.CWL + cfg.burstCycle + tWTR);
    } else {
      assert BusRule(cfg, a, b, if a.kind.IsRead() then cfg.burstCycle + cfg.tRTRS
                     else if b.kind.IsWrite() then cfg.burstCycle else cfg.CWL + cfg.burstCycle - cfg.CL + cfg.tRTRS);
    }
  }

  /** On the data bus: column commands of one rank keep tCCD, tWTR and the turn of the bus, and those
      of different ranks keep tRTRS. Two of one bank do so while the first leaves its row open. */
  lemma BusTimings(cfg: Config, states: seq<State>, inputs: seq<Input>, n: nat, i: nat, j: nat)
    requires InRun(cfg, states, inputs, n, i, j)
    requires states[n].shadow.history[i].cmd.kind.IsReadWrite() && states[n].shadow.history[j].cmd.kind.IsReadWrite()
    requires OneBank(states[n].shadow.history[i].cmd, states[n].shadow.history[j].cmd) ==>
               states[n].shadow.history[i].cmd.kind in {Read, Write}
    ensures var h := states[n].shadow.history;
            BusSpaced(cfg, h[i].cmd, h[j].cmd, h[j].clk - h[i].clk)
  {
    var h := states[n].shadow.history;
    forall cycles | BusRule(cfg, h[i].cmd, h[j].cmd, cycles)
      ensures h[j].clk - h[i].clk >= cycles
    {
      BankKeeps(cfg, states, inputs, n, i, j, cycles);
    }
    NamedBus(cfg, h[i].cmd, h[j].cmd, h[j].clk - h[i].clk);
  }

  /** A REFRESH_BANK delays the other banks of its rank, and its own bank not at all: the source
      enters that delay in a table that it never reads. */
  lemma RefreshedBankIsFree(cfg: Config, first: Command, next: CommandType, cycles: int)
    requires first.kind.RefreshBank?
    ensures !Rule(cfg, first, first.Bank(), next, cycles)
  {
  }
}
