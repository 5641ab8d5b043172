/** The command-to-command gap tables (timing.cc) and how a command reaches each bank of the
    channel (the dispatch of channel_state.cc). */
module Timing {
  import opened Basics
  import opened DramTypes

  /** After the constraining command, a `next` command must wait `cycles` cycles. */
  datatype Gap = Gap(next: CommandType, cycles: int)

  function ReadToReadL(cfg: Config): int {
    Max(cfg.burstCycle, if cfg.bankgroups == 1 then cfg.tCCDS else cfg.tCCDL)
  }

  function ReadToReadS(cfg: Config): int {
    Max(cfg.burstCycle, cfg.tCCDS)
  }

  function ReadToReadO(cfg: Config): int {
    cfg.burstCycle + cfg.tRTRS
  }

  function ReadToWrite(cfg: Config): int {
    cfg.ReadLatency() + cfg.burstCycle - cfg.WriteLatency() + cfg.tRTRS
  }

  function ReadToWriteO(cfg: Config): int {
    cfg.ReadDelay() + cfg.burstCycle + cfg.tRTRS - cfg.WriteDelay()
  }

  function WriteToReadL(cfg: Config): int {
    cfg.WriteDelay() + if cfg.bankgroups == 1 then cfg.tWTRS else cfg.tWTRL
  }

  function WriteToReadS(cfg: Config): int {
    cfg.WriteDelay() + cfg.tWTRS
  }

  function WriteToReadO(cfg: Config): int {
    cfg.WriteDelay() + cfg.burstCycle + cfg.tRTRS - cfg.ReadDelay()
  }

  function WriteToWriteO(cfg: Config): int {
    cfg.burstCycle
  }

  function ReadToPrecharge(cfg: Config): int {
    cfg.AL + cfg.tRTP
  }

  function WriteToPrecharge(cfg: Config): int {
    cfg.WriteLatency() + cfg.burstCycle + cfg.tWR
  }

  function ReadToActivate(cfg: Config): int {
    ReadToPrecharge(cfg) + cfg.tRP
  }

  function ReadPrechargeToActivate(cfg: Config): int {
    cfg.AL + cfg.burstCycle + cfg.tRTP + cfg.tRP
  }

  function WriteToActivate(cfg: Config): int {
    WriteToPrecharge(cfg) + cfg.tRP
  }

  function RowCycle(cfg: Config): int {
    cfg.tRAS + cfg.tRP
  }

  function ActivateToRead(cfg: Config): int {
    if cfg.IsGDDR() || cfg.IsHBM() then cfg.tRCDRD else cfg.tRCD - cfg.AL
  }

  function ActivateToWrite(cfg: Config): int {
    if cfg.IsGDDR() || cfg.IsHBM() then cfg.tRCDWR else cfg.tRCD - cfg.AL
  }

  /** One gap for each kind of column command. */
  function ColumnGaps(toRead: int, toWrite: int): seq<Gap> {
    [Gap(Read, toRead), Gap(Write, toWrite), Gap(ReadPrecharge, toRead), Gap(WritePrecharge, toWrite)]
  }

  /** What closing a bank imposes on the commands that need it closed. */
  function ClosedGaps(toActivate: int, toRefresh: int): seq<Gap> {
    [Gap(Activate, toActivate), Gap(Refresh, toRefresh), Gap(RefreshBank, toRefresh), Gap(SrefEnter, toRefresh)]
  }

  function SameBank(cfg: Config, kind: CommandType): seq<Gap> {
    match kind
    case Read => ColumnGaps(ReadToReadL(cfg), ReadToWrite(cfg)) + [Gap(Precharge, ReadToPrecharge(cfg))]
    case Write => ColumnGaps(WriteToReadL(cfg), ReadToReadL(cfg)) + [Gap(Precharge, WriteToPrecharge(cfg))]
    case ReadPrecharge => ClosedGaps(ReadPrechargeToActivate(cfg), ReadToActivate(cfg))
    case WritePrecharge => ClosedGaps(WriteToActivate(cfg), WriteToActivate(cfg))
    case Activate =>
      [Gap(Activate, RowCycle(cfg))]
      + ColumnGaps(ActivateToRead(cfg), ActivateToWrite(cfg))
      + [Gap(Precharge, cfg.tRAS)]
    case Precharge => ClosedGaps(cfg.tRP, cfg.tRP)
    case _ => []
  }

  function OtherBanksSameBankgroup(cfg: Config, kind: CommandType): seq<Gap> {
    match kind
    case Read => ColumnGaps(ReadToReadL(cfg), ReadToWrite(cfg))
    case ReadPrecharge => ColumnGaps(ReadToReadL(cfg), ReadToWrite(cfg))
    case Write => ColumnGaps(WriteToReadL(cfg), ReadToReadL(cfg))
    case WritePrecharge => ColumnGaps(WriteToReadL(cfg), ReadToReadL(cfg))
    case Activate =>
      [Gap(Activate, if cfg.bankgroups == 1 then cfg.tRRDS else cfg.tRRDL), Gap(RefreshBank, RowCycle(cfg))]
    case Precharge =>
      if cfg.IsGDDR() || cfg.protocol.LPDDR4? then [Gap(Precharge, cfg.tPPD)] else []
    case RefreshBank => [Gap(Activate, cfg.tRFC), Gap(RefreshBank, cfg.tREFI)]
    case _ => []
  }

  function OtherBankgroupsSameRank(cfg: Config, kind: CommandType): seq<Gap> {
    match kind
    case Read => ColumnGaps(ReadToReadS(cfg), ReadToWrite(cfg))
    case ReadPrecharge => ColumnGaps(ReadToReadS(cfg), ReadToWrite(cfg))
    case Write => ColumnGaps(WriteToReadS(cfg), ReadToReadS(cfg))
    case WritePrecharge => ColumnGaps(WriteToReadS(cfg), ReadToReadS(cfg))
    case Activate => [Gap(Activate, cfg.tRRDS), Gap(RefreshBank, RowCycle(cfg))]
    case Precharge =>
      if cfg.IsGDDR() || cfg.protocol.LPDDR4? then [Gap(Precharge, cfg.tPPD)] else []
    case RefreshBank => [Gap(Activate, cfg.tRFC), Gap(RefreshBank, cfg.tREFI)]
    case _ => []
  }

  function OtherRanks(cfg: Config, kind: CommandType): seq<Gap> {
    match kind
    case Read => ColumnGaps(ReadToReadO(cfg), ReadToWriteO(cfg))
    case ReadPrecharge => ColumnGaps(ReadToReadO(cfg), ReadToWriteO(cfg))
    case Write => ColumnGaps(WriteToReadO(cfg), WriteToWriteO(cfg))
    case WritePrecharge => ColumnGaps(WriteToReadO(cfg), WriteToWriteO(cfg))
    case _ => []
  }

  /** Consulted for rank commands only; the REFRESH_BANK row the source fills in is never read. */
  function SameRank(cfg: Config, kind: CommandType): seq<Gap> {
    match kind
    case Refresh => [Gap(Activate, cfg.tRFC), Gap(Refresh, cfg.tRFC), Gap(SrefEnter, cfg.tRFC)]
    case SrefEnter => [Gap(SrefExit, cfg.tCKESR)]
    case SrefExit =>
      [Gap(Activate, cfg.tXS), Gap(Refresh, cfg.tXS), Gap(RefreshBank, cfg.tXS), Gap(SrefEnter, cfg.tXS)]
    case _ => []
  }

  /** Picks a list by how bank `b` is related to the bank at `addr`. */
  function ByRelation<T>(addr: BankId, b: BankId, bank: T, group: T, rank: T, others: T): T {
    if b.rank != addr.rank then others
    else if b.group != addr.group then rank
    else if b.bank != addr.bank then group
    else bank
  }

  /** The gaps that issuing `cmd` imposes on bank `b`. */
  function Constraints(cfg: Config, cmd: Command, b: BankId): seq<Gap> {
    if cmd.kind.IsRankCommand() then
      if b.rank == cmd.addr.rank then SameRank(cfg, cmd.kind) else []
    else
      ByRelation(
        cmd.Bank(),
        b,
        SameBank(cfg, cmd.kind),
        OtherBanksSameBankgroup(cfg, cmd.kind),
        OtherBankgroupsSameRank(cfg, cmd.kind),
        OtherRanks(cfg, cmd.kind))
  }
}
