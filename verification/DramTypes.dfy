/** Commands, addresses, transactions and the configuration shared by the channel
    controller model (common.h, configuration.h). */
module DramTypes {

  /** `Abort` is the outcome of AbruptExit() and exit(1): the simulator process ends. */
  datatype Result<+T> = Abort | Ok(value: T) {
    predicate IsFailure() {
      Abort?
    }

    function PropagateFailure<U>(): Result<U>
      requires Abort?
    {
      Abort
    }

    function Extract(): T
      requires Ok?
    {
      value
    }
  }

  datatype CommandType =
    | Read
    | ReadPrecharge
    | Write
    | WritePrecharge
    | Activate
    | Precharge
    | RefreshBank
    | Refresh
    | SrefEnter
    | SrefExit
  {
    predicate IsRead() {
      Read? || ReadPrecharge?
    }

    predicate IsWrite() {
      Write? || WritePrecharge?
    }

    predicate IsReadWrite() {
      IsRead() || IsWrite()
    }

    predicate IsRefresh() {
      Refresh? || RefreshBank?
    }

    predicate IsRankCommand() {
      Refresh? || SrefEnter? || SrefExit?
    }
  }

  datatype Address = Address(channel: int, rank: int, bankgroup: int, bank: int, row: int, column: int)

  datatype BankId = BankId(rank: int, group: int, bank: int)

  datatype Command = Command(kind: CommandType, addr: Address, hexAddr: nat) {
    function Bank(): BankId {
      BankId(addr.rank, addr.bankgroup, addr.bank)
    }
  }

  /** The hex address of commands that carry none: -1 stored in a uint64_t. */
  const NO_HEX_ADDR: nat := 0xFFFF_FFFF_FFFF_FFFF

  /** `serial` identifies the request; the simulator tells copies of a transaction apart
      only by their position in its queues. */
  datatype Transaction = Transaction(addr: nat, isWrite: bool, added: nat, complete: nat, serial: nat)

  datatype Protocol = DDR3 | DDR4 | GDDR5 | GDDR5X | GDDR6 | LPDDR | LPDDR3 | LPDDR4 | LPDDR5 | HBM | HBM2 | HMC

  datatype QueueStructure = PerRank | PerBank

  datatype RefreshPolicy = RankSimultaneous | RankStaggered | BankStaggered

  datatype Config = Config(
    protocol: Protocol,
    ranks: nat,
    bankgroups: nat,
    banksPerGroup: nat,
    burstCycle: int,
    AL: int,
    CL: int,
    CWL: int,
    tCCDL: int,
    tCCDS: int,
    tRTRS: int,
    tRTP: int,
    tWTRL: int,
    tWTRS: int,
    tWR: int,
    tRP: int,
    tRRDL: int,
    tRRDS: int,
    tRAS: int,
    tRCD: int,
    tRFC: int,
    tCKESR: int,
    tXS: int,
    tREFI: int,
    tREFIb: int,
    tFAW: int,
    tPPD: int,
    t32AW: int,
    tRCDRD: int,
    tRCDWR: int,
    queueStructure: QueueStructure,
    cmdQueueSize: nat,
    transQueueSize: nat,
    unifiedQueue: bool,
    closePage: bool,
    refreshPolicy: RefreshPolicy,
    dualCommand: bool,
    decode: nat -> Address)
  {
    predicate IsGDDR() {
      protocol.GDDR5? || protocol.GDDR5X? || protocol.GDDR6?
    }

    predicate IsHBM() {
      protocol.HBM? || protocol.HBM2?
    }

    function Banks(): nat {
      bankgroups * banksPerGroup
    }

    function ReadLatency(): int {
      AL + CL
    }

    function WriteLatency(): int {
      AL + CWL
    }

    function ReadDelay(): int {
      ReadLatency() + burstCycle
    }

    function WriteDelay(): int {
      WriteLatency() + burstCycle
    }

    predicate HasBank(b: BankId) {
      0 <= b.rank < ranks && 0 <= b.group < bankgroups && 0 <= b.bank < banksPerGroup
    }

    /** The geometry is non-empty and the address mapping lands inside it. */
    ghost predicate WellFormed() {
      && ranks > 0
      && bankgroups > 0
      && banksPerGroup > 0
      && forall a: nat :: HasBank(Command(Read, decode(a), a).Bank())
    }
  }

  /** `clk + cycles` in uint64_t arithmetic: a negative sum wraps to a huge cycle. */
  function Deadline(clk: nat, cycles: int): (d: nat)
    ensures d >= clk + cycles
    ensures clk + cycles >= 0 ==> d == clk + cycles
  {
    if clk + cycles >= 0 then clk + cycles else (clk + cycles) % 0x1_0000_0000_0000_0000
  }
}
