/** Data bursts on the channel's bus: no two of a run overlap, for configurations whose gaps leave
    room for a burst. */
module DataBus {
  import opened DramTypes
  import opened Timing
  import opened Channel
  import opened History
  import opened Controller
  import opened DualIssue
  import opened Runs
  import opened PagePolicy
  import opened ControllerTheorems

  /** Cycles from a column command to its data. */
  function Latency(cfg: Config, kind: CommandType): int {
    if kind.IsRead() then cfg.ReadLatency() else cfg.WriteLatency()
  }

  /** The first cycle of the burst of a column command; it takes `burstCycle` cycles. */
  function BurstStart(cfg: Config, c: Issued): int {
    c.clk + Latency(cfg, c.cmd.kind)
  }

  // ---------------------------------------------------------------- what the gaps leave room for

  /** The gap between column commands of the given kinds: at the same bank or bank group, in
      another bank group of the rank, or in another rank. */
  datatype Distance = Near | Group | Rank

  function ColumnGapOf(cfg: Config, first: CommandType, second: CommandType, d: Distance): int {
    match d
    case Near =>
      if first.IsRead() then (if second.IsRead() then ReadToReadL(cfg) else ReadToWrite(cfg))
      else (if second.IsRead() then WriteToReadL(cfg) else ReadToReadL(cfg))
    case Group =>
      if first.IsRead() then (if second.IsRead() then ReadToReadS(cfg) else ReadToWrite(cfg))
      else (if second.IsRead() then WriteToReadS(cfg) else ReadToReadS(cfg))
    case Rank =>
      if first.IsRead() then (if second.IsRead() then ReadToReadO(cfg) else ReadToWriteO(cfg))
      else (if second.IsRead() then WriteToReadO(cfg) else WriteToWriteO(cfg))
  }

  /** From an auto-precharging access over the next activation of the bank to another access. */
  function ReopenGap(cfg: Config, first: CommandType, second: CommandType): int {
    (if first.IsRead() then ReadPrechargeToActivate(cfg) else WriteToActivate(cfg))
    + (if second.IsRead() then ActivateToRead(cfg) else ActivateToWrite(cfg))
  }

  predicate LeavesRoom(cfg: Config, first: CommandType, second: CommandType, gap: int) {
    gap + Latency(cfg, second) - Latency(cfg, first) >= cfg.burstCycle
  }

  /** Every gap that the tables can put between two bursts is long enough for the first one. With
      open pages no column command closes its row. */
  predicate BurstsFit(cfg: Config) {
    && (forall first: CommandType, second: CommandType, d: Distance ::
          first.IsReadWrite() && second.IsReadWrite() ==> LeavesRoom(cfg, first, second, ColumnGapOf(cfg, first, second, d)))
    && (cfg.closePage ==>
          forall first: CommandType, second: CommandType ::
            first.IsReadWrite() && second.IsReadWrite() ==> LeavesRoom(cfg, first, second, ReopenGap(cfg, first, second)))
  }

  /** What that asks of the configuration. */
  predicate BusParameters(cfg: Config) {
    && cfg.tRTRS >= 0
    && (if cfg.bankgroups == 1 then cfg.tWTRS else cfg.tWTRL) + cfg.ReadLatency() >= 0
    && cfg.tWTRS + cfg.ReadLatency() >= 0
    && (cfg.closePage ==>
          && cfg.AL + cfg.tRTP + cfg.tRP + ActivateToRead(cfg) >= 0
          && WriteFollowsRead(cfg)
          && cfg.tWR + cfg.tRP + ActivateToRead(cfg) + cfg.ReadLatency() >= 0
          && cfg.WriteLatency() + cfg.tWR + cfg.tRP + ActivateToWrite(cfg) >= 0)
  }

  /** A write to a row opened after an auto-precharging read starts its burst after the read's. */
  predicate WriteFollowsRead(cfg: Config) {
    cfg.AL + cfg.tRTP + cfg.tRP + ActivateToWrite(cfg) + cfg.WriteLatency() >= cfg.ReadLatency()
  }

  /** No timing parameter is negative. */
  predicate NonNegative(cfg: Config) {
    && cfg.AL >= 0 && cfg.CL >= 0 && cfg.CWL >= 0 && cfg.burstCycle >= 0
    && cfg.tRTRS >= 0 && cfg.tWTRS >= 0 && cfg.tWTRL >= 0
    && cfg.tRTP >= 0 && cfg.tRP >= 0 && cfg.tWR >= 0
    && cfg.tRCD >= 0 && cfg.tRCDRD >= 0 && cfg.tRCDWR >= 0
  }

  /** Of the parameters that a configuration really has, one combination matters, and only with
      closed pages. */
  lemma PlainParametersIff(cfg: Config)
    requires NonNegative(cfg)
    ensures BurstsFit(cfg) <==> (cfg.closePage ==> WriteFollowsRead(cfg))
  {
    BurstsFitIff(cfg);
  }

  lemma BurstsFitIff(cfg: Config)
    ensures BurstsFit(cfg) <==> BusParameters(cfg)
  {
    if BurstsFit(cfg) {
      assert LeavesRoom(cfg, Read, Write, ColumnGapOf(cfg, Read, Write, Near));
      assert LeavesRoom(cfg, Write, Read, ColumnGapOf(cfg, Write, Read, Near));
      assert LeavesRoom(cfg, Write, Read, ColumnGapOf(cfg, Write, Read, Group));
    }
    if BurstsFit(cfg) && cfg.closePage {
      assert LeavesRoom(cfg, Read, Read, ReopenGap(cfg, Read, Read));
      assert LeavesRoom(cfg, Read, Write, ReopenGap(cfg, Read, Write));
      assert LeavesRoom(cfg, Write, Read, ReopenGap(cfg, Write, Read));
      assert LeavesRoom(cfg, Write, Write, ReopenGap(cfg, Write, Write));
    }
  }

  // ---------------------------------------------------------------- runs

  function DistanceOf(a: Command, b: Command): Distance {
    if a.addr.rank != b.addr.rank then Rank else if a.addr.bankgroup != b.addr.bankgroup then Group else Near
  }

  /** The gap between two column commands is in the tables unless the first one closes the bank. */
  lemma TableGap(cfg: Config, a: Command, b: Command) returns (g: Gap)
    requires a.kind.IsReadWrite() && b.kind.IsReadWrite() && StaysOpen(a, b.Bank())
    ensures g in Constraints(cfg, a, b.Bank()) && g.next == b.kind
    ensures g.cycles == ColumnGapOf(cfg, a.kind, b.kind, DistanceOf(a, b))
  {
    var d := DistanceOf(a, b);
    var toRead, toWrite := ColumnGapOf(cfg, a.kind, Read, d), ColumnGapOf(cfg, a.kind, Write, d);
    ColumnGapIn(toRead, toWrite, b.kind);
    g := ColumnGap(toRead, toWrite, b.kind);
    assert ColumnGaps(toRead, toWrite) <= Constraints(cfg, a, b.Bank());
  }

  lemma ReopenGaps(cfg: Config, a: Command, act: Command, b: Command) returns (g1: Gap, g2: Gap)
    requires a.kind.ReadPrecharge? || a.kind.WritePrecharge?
    requires act.kind.Activate? && b.kind.IsReadWrite() && a.Bank() == act.Bank() == b.Bank()
    ensures g1 in Constraints(cfg, a, b.Bank()) && g1.next == Activate
    ensures g2 in Constraints(cfg, act, b.Bank()) && g2.next == b.kind
    ensures g1.cycles + g2.cycles == ReopenGap(cfg, a.kind, b.kind)
  {
    var toActivate := if a.kind.IsRead() then ReadPrechargeToActivate(cfg) else WriteToActivate(cfg);
    g1 := Gap(Activate, toActivate);
    assert SameBank(cfg, a.kind)[0] == g1;
    ColumnGapIn(ActivateToRead(cfg), ActivateToWrite(cfg), b.kind);
    g2 := ColumnGap(ActivateToRead(cfg), ActivateToWrite(cfg), b.kind);
    assert ColumnGaps(ActivateToRead(cfg), ActivateToWrite(cfg)) <= SameBank(cfg, Activate)[1..];
  }

  /** If the configuration's gaps leave room, no two data bursts of a run overlap: a later read or
      write command starts its burst after the end of every earlier one. */
  lemma BurstsDoNotOverlap(cfg: Config, states: seq<State>, inputs: seq<Input>, n: nat, i: nat, j: nat)
    requires Behaviour(cfg, states, inputs) && n < |states| && BurstsFit(cfg)
    requires i < j < |states[n].shadow.history|
    requires var h := states[n].shadow.history; h[i].cmd.kind.IsReadWrite() && h[j].cmd.kind.IsReadWrite()
    ensures var h := states[n].shadow.history;
            BurstStart(cfg, h[j]) >= BurstStart(cfg, h[i]) + cfg.burstCycle
  {
    BehaviourKeepsInv(cfg, states, inputs, n);
    var h := states[n].shadow.history;
    var a, b := h[i].cmd, h[j].cmd;
    assert Addressed(cfg, b);
    if StaysOpen(a, b.Bank()) {
      NearBursts(cfg, states, inputs, n, i, j);
    } else {
      ReopenedBursts(cfg, states, inputs, n, i, j);
    }
  }

  lemma NearBursts(cfg: Config, states: seq<State>, inputs: seq<Input>, n: nat, i: nat, j: nat)
    requires Behaviour(cfg, states, inputs) && n < |states| && BurstsFit(cfg)
    requires i < j < |states[n].shadow.history|
    requires var h := states[n].shadow.history;
             h[i].cmd.kind.IsReadWrite() && h[j].cmd.kind.IsReadWrite() && StaysOpen(h[i].cmd, h[j].cmd.Bank())
             && cfg.HasBank(h[j].cmd.Bank())
    ensures var h := states[n].shadow.history;
            BurstStart(cfg, h[j]) >= BurstStart(cfg, h[i]) + cfg.burstCycle
  {
    var h := states[n].shadow.history;
    var a, b := h[i].cmd, h[j].cmd;
    var g := TableGap(cfg, a, b);
    EveryGapIsKept(cfg, states, inputs, n, i, j, b.Bank(), g);
    assert LeavesRoom(cfg, a.kind, b.kind, ColumnGapOf(cfg, a.kind, b.kind, DistanceOf(a, b)));
  }

  lemma ReopenedBursts(cfg: Config, states: seq<State>, inputs: seq<Input>, n: nat, i: nat, j: nat)
    requires Behaviour(cfg, states, inputs) && n < |states| && BurstsFit(cfg)
    requires i < j < |states[n].shadow.history|
    requires var h := states[n].shadow.history;
             h[i].cmd.kind.IsReadWrite() && h[j].cmd.kind.IsReadWrite() && !StaysOpen(h[i].cmd, h[j].cmd.Bank())
             && cfg.HasBank(h[j].cmd.Bank())
    ensures var h := states[n].shadow.history;
            BurstStart(cfg, h[j]) >= BurstStart(cfg, h[i]) + cfg.burstCycle
  {
    var h := states[n].shadow.history;
    var a, b := h[i].cmd, h[j].cmd;
    var k := ColumnsMeetTheirRow(cfg, states, inputs, n, j);
    assert ChangesRow(a, b.Bank());
    PagesAsConfigured(cfg, states, inputs, n, i);
    var g1, g2 := ReopenGaps(cfg, a, h[k].cmd, b);
    EveryGapIsKept(cfg, states, inputs, n, i, k, b.Bank(), g1);
    EveryGapIsKept(cfg, states, inputs, n, k, j, b.Bank(), g2);
    assert LeavesRoom(cfg, a.kind, b.kind, ReopenGap(cfg, a.kind, b.kind));
  }
}
