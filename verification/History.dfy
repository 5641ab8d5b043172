/** What the incremental tables and window lists of a channel mean for the whole command
    history: every pairwise gap and every activation window is respected. */
module History {
  import opened Basics
  import opened DramTypes
  import opened Timing
  import opened Bank
  import opened Channel

  datatype Issued = Issued(cmd: Command, clk: nat)

  /** The banks whose tables decide when `cmd` may issue. */
  predicate Governs(cmd: Command, b: BankId) {
    if cmd.kind.IsRankCommand() then b.rank == cmd.addr.rank else b == cmd.Bank()
  }

  // ---------------------------------------------------------------- pairwise gaps

  /** A past command as one bank sees it. */
  datatype Imposed = Imposed(gaps: seq<Gap>, clk: nat)

  function View(cfg: Config, h: seq<Issued>, b: BankId): seq<Imposed> {
    seq(|h|, i requires 0 <= i < |h| => Imposed(Constraints(cfg, h[i].cmd, b), h[i].clk))
  }

  function ViewBound(v: seq<Imposed>, kind: CommandType): nat {
    if v == [] then 0
    else
      var n := |v| - 1;
      Max(ViewBound(v[..n], kind), LatestDeadline(v[n].gaps, kind, v[n].clk))
  }

  /** The latest deadline that the whole history gives to `kind` at bank `b`. */
  function Bound(cfg: Config, h: seq<Issued>, b: BankId, kind: CommandType): nat {
    ViewBound(View(cfg, h, b), kind)
  }

  /** `g` is a gap that the i-th command of the history imposes on `kind` at bank `b`. */
  predicate Imposes(cfg: Config, h: seq<Issued>, i: nat, b: BankId, kind: CommandType, g: Gap)
    requires i < |h|
  {
    g in Constraints(cfg, h[i].cmd, b) && g.next == kind
  }

  lemma {:induction false} ViewBoundCovers(v: seq<Imposed>, kind: CommandType, i: nat, g: Gap)
    requires i < |v| && g in v[i].gaps && g.next == kind
    ensures Deadline(v[i].clk, g.cycles) <= ViewBound(v, kind)
  {
    var n := |v| - 1;
    if i < n {
      ViewBoundCovers(v[..n], kind, i, g);
    } else {
      LatestDeadlineIsMaximum(v[n].gaps, kind, v[n].clk);
    }
  }

  lemma {:induction false} ViewBoundAttained(v: seq<Imposed>, kind: CommandType) returns (i: nat, g: Gap)
    requires ViewBound(v, kind) != 0
    ensures i < |v| && g in v[i].gaps && g.next == kind
    ensures Deadline(v[i].clk, g.cycles) == ViewBound(v, kind)
  {
    var n := |v| - 1;
    if ViewBound(v[..n], kind) == ViewBound(v, kind) {
      i, g := ViewBoundAttained(v[..n], kind);
    } else {
      LatestDeadlineIsMaximum(v[n].gaps, kind, v[n].clk);
      i := n;
      g :| g in v[n].gaps && g.next == kind && Deadline(v[n].clk, g.cycles) == LatestDeadline(v[n].gaps, kind, v[n].clk);
    }
  }

  /** The bound is the maximum, over every earlier related command, of issue cycle plus gap. */
  lemma BoundIsMaximum(cfg: Config, h: seq<Issued>, b: BankId, kind: CommandType)
    ensures forall i: nat, g :: i < |h| && Imposes(cfg, h, i, b, kind, g) ==> Deadline(h[i].clk, g.cycles) <= Bound(cfg, h, b, kind)
    ensures Bound(cfg, h, b, kind) == 0
            || exists i: nat, g :: i < |h| && Imposes(cfg, h, i, b, kind, g) && Deadline(h[i].clk, g.cycles) == Bound(cfg, h, b, kind)
  {
    forall i: nat, g | i < |h| && Imposes(cfg, h, i, b, kind, g)
      ensures Deadline(h[i].clk, g.cycles) <= Bound(cfg, h, b, kind)
    {
      ViewBoundCovers(View(cfg, h, b), kind, i, g);
    }
    if Bound(cfg, h, b, kind) != 0 {
      var i, g := ViewBoundAttained(View(cfg, h, b), kind);
      assert Imposes(cfg, h, i, b, kind, g);
    }
  }

  /** Each table entry is exactly that maximum. */
  ghost predicate TablesMatch(cfg: Config, ch: Channel, h: seq<Issued>)
    requires ValidChannel(cfg, ch)
  {
    forall b, kind :: b in ch.banks ==> ch.banks[b].timing[Slot(kind)] == Bound(cfg, h, b, kind)
  }

  /** The j-th command keeps every gap that the i-th imposes on it. */
  ghost predicate KeepsGaps(cfg: Config, h: seq<Issued>, i: nat, j: nat)
    requires i < |h| && j < |h|
  {
    forall b, g :: cfg.HasBank(b) && Governs(h[j].cmd, b) && Imposes(cfg, h, i, b, h[j].cmd.kind, g)
                   ==> h[j].clk >= h[i].clk + g.cycles
  }

  ghost predicate PairwiseLegal(cfg: Config, h: seq<Issued>) {
    forall i: nat, j: nat :: i < j < |h| ==> KeepsGaps(cfg, h, i, j)
  }

  // ---------------------------------------------------------------- activation windows

  /** The cycles at which the rank was activated, oldest first. */
  function Activations(h: seq<Issued>, rank: int): seq<nat> {
    if h == [] then []
    else
      var n := |h| - 1;
      var rest := Activations(h[..n], rank);
      if h[n].cmd.kind.Activate? && h[n].cmd.addr.rank == rank then rest + [h[n].clk] else rest
  }

  /** No `limit + 1` activations fall into a window of `cycles` cycles. */
  ghost predicate WindowLegal(acts: seq<nat>, limit: nat, cycles: int) {
    forall i: nat :: i + limit < |acts| ==> acts[i + limit] >= acts[i] + cycles
  }

  ghost predicate WindowsLegal(cfg: Config, h: seq<Issued>) {
    forall rank :: 0 <= rank < cfg.ranks ==>
                     && WindowLegal(Activations(h, rank), 4, cfg.tFAW)
                     && (cfg.IsGDDR() ==> WindowLegal(Activations(h, rank), 32, cfg.t32AW))
  }

  /** The list holds the expiry cycles of the last activations; everything it has dropped
      had expired by the last activation. */
  ghost predicate WindowMatches(window: seq<nat>, acts: seq<nat>, limit: nat, cycles: int) {
    && |window| <= limit
    && |window| <= |acts|
    && (forall i :: 0 <= i < |window| ==> window[i] == Deadline(acts[|acts| - |window| + i], cycles))
    && (forall i :: 0 <= i < |acts| - |window| ==> Deadline(acts[i], cycles) <= acts[|acts| - 1])
  }

  ghost predicate WindowsMatch(cfg: Config, ch: Channel, h: seq<Issued>)
    requires ValidChannel(cfg, ch)
  {
    forall rank :: 0 <= rank < cfg.ranks ==>
                     && WindowMatches(ch.fourAw[rank], Activations(h, rank), 4, cfg.tFAW)
                     && (cfg.IsGDDR() ==> WindowMatches(ch.thirtyTwoAw[rank], Activations(h, rank), 32, cfg.t32AW))
  }

  lemma PushKeepsLegal(window: seq<nat>, acts: seq<nat>, limit: nat, cycles: int, clk: nat)
    requires limit > 0
    requires WindowMatches(window, acts, limit, cycles)
    requires WindowLegal(acts, limit, cycles)
    requires forall i :: 0 <= i < |acts| ==> acts[i] <= clk
    requires WindowOk(window, limit, clk)
    ensures WindowLegal(acts + [clk], limit, cycles)
  {
  }

  lemma PushKeepsMatch(window: seq<nat>, acts: seq<nat>, limit: nat, cycles: int, clk: nat)
    requires limit > 0
    requires WindowMatches(window, acts, limit, cycles)
    requires forall i :: 0 <= i < |acts| ==> acts[i] <= clk
    requires WindowOk(window, limit, clk)
    ensures WindowMatches(PushWindow(window, cycles, clk), acts + [clk], limit, cycles)
  {
  }

  // ---------------------------------------------------------------- rows

  /** The row that the history has left open at a bank: that of the last activation, unless a
      precharge or an auto-precharging access came later. */
  function OpenRow(h: seq<Issued>, b: BankId): Option<int> {
    if h == [] then None
    else
      var n := |h| - 1;
      RowAfter(h[n].cmd, b, OpenRow(h[..n], b))
  }

  function RowAfter(cmd: Command, b: BankId, before: Option<int>): Option<int> {
    if ChangesRow(cmd, b) then (if cmd.kind.Activate? then Some(cmd.addr.row) else None) else before
  }

  predicate ChangesRow(cmd: Command, b: BankId) {
    cmd.Bank() == b
    && (cmd.kind.Activate? || cmd.kind.Precharge? || cmd.kind.ReadPrecharge? || cmd.kind.WritePrecharge?)
  }

  /** An open row is that of the last activation, and nothing has changed it since. */
  lemma {:induction false} OpenRowMeaning(h: seq<Issued>, b: BankId) returns (i: nat)
    requires OpenRow(h, b).Some?
    ensures i < |h| && h[i].cmd.kind.Activate? && h[i].cmd.Bank() == b && OpenRow(h, b) == Some(h[i].cmd.addr.row)
    ensures forall k :: i < k < |h| ==> !ChangesRow(h[k].cmd, b)
  {
    var n := |h| - 1;
    if ChangesRow(h[n].cmd, b) {
      i := n;
    } else {
      i := OpenRowMeaning(h[..n], b);
      assert forall k :: i < k < n ==> h[..n][k] == h[k];
    }
  }

  function RowOf(bank: BankState): Option<int> {
    if bank.IsRowOpen() then Some(bank.openRow) else None
  }

  /** Each bank's state is what the history left open there. */
  ghost predicate RowsMatch(ch: Channel, h: seq<Issued>) {
    forall b {:trigger OpenRow(h, b)} :: b in ch.banks ==> OpenRow(h, b) == RowOf(ch.banks[b])
  }

  /** A column command finds its own row open. */
  ghost predicate MeetsRow(h: seq<Issued>, j: nat)
    requires j < |h|
  {
    h[j].cmd.kind.IsReadWrite() ==> OpenRow(h[..j], h[j].cmd.Bank()) == Some(h[j].cmd.addr.row)
  }

  ghost predicate RowsMet(h: seq<Issued>) {
    forall j :: 0 <= j < |h| ==> MeetsRow(h, j)
  }

  // ---------------------------------------------------------------- row hits

  /** The reads and writes of a bank since its last precharge. */
  function Hits(h: seq<Issued>, b: BankId): nat {
    if h == [] then 0
    else
      var n := |h| - 1;
      HitsAfter(h[n].cmd, b, Hits(h[..n], b))
  }

  function HitsAfter(cmd: Command, b: BankId, before: nat): nat {
    if cmd.Bank() != b then before
    else if cmd.kind.Read? || cmd.kind.Write? then before + 1
    else if cmd.kind.Precharge? || cmd.kind.ReadPrecharge? || cmd.kind.WritePrecharge? then 0
    else before
  }

  /** Each bank counts exactly those. */
  ghost predicate HitsMatch(ch: Channel, h: seq<Issued>) {
    forall b {:trigger Hits(h, b)} :: b in ch.banks ==> Hits(h, b) == ch.banks[b].rowHits
  }

  // ---------------------------------------------------------------- the invariant

  ghost predicate Chronological(h: seq<Issued>, clk: nat) {
    && (forall i :: 0 <= i < |h| ==> h[i].clk <= clk)
    && (forall i, j :: 0 <= i < j < |h| ==> h[i].clk <= h[j].clk)
  }

  /** Every command names a bank or a rank of the geometry. */
  ghost predicate AllAddressed(cfg: Config, h: seq<Issued>) {
    forall j :: 0 <= j < |h| ==> Addressed(cfg, h[j].cmd)
  }

  ghost predicate HistoryInv(cfg: Config, ch: Channel, h: seq<Issued>, clk: nat) {
    && ValidChannel(cfg, ch)
    && Chronological(h, clk)
    && TablesMatch(cfg, ch, h)
    && WindowsMatch(cfg, ch, h)
    && PairwiseLegal(cfg, h)
    && WindowsLegal(cfg, h)
    && AllAddressed(cfg, h)
    && RowsMatch(ch, h)
    && RowsMet(h)
    && HitsMatch(ch, h)
  }

  /** The command is legal now: its banks accept it, their tables allow it, an activation fits the
      windows, and a column command finds its row open. */
  ghost predicate Issuable(cfg: Config, ch: Channel, cmd: Command, clk: nat)
    requires ValidChannel(cfg, ch)
  {
    && Addressed(cfg, cmd)
    && (forall b :: b in ch.banks && Governs(cmd, b) ==>
                      UpdateState(ch.banks[b], cmd).Ok? && ch.banks[b].timing[Slot(cmd.kind)] <= clk)
    && (cmd.kind.Activate? ==> ActivationWindowOk(cfg, ch, cmd.addr.rank, clk))
    && (cmd.kind.IsReadWrite() ==> RowOf(ch.banks[cmd.Bank()]) == Some(cmd.addr.row))
  }

  lemma IssueKeepsTables(cfg: Config, ch: Channel, h: seq<Issued>, cmd: Command, clk: nat)
    requires ValidChannel(cfg, ch) && Addressed(cfg, cmd)
    requires TablesMatch(cfg, ch, h)
    requires Issue(cfg, ch, cmd, clk).Ok?
    ensures TablesMatch(cfg, Issue(cfg, ch, cmd, clk).value, h + [Issued(cmd, clk)])
  {
    var h' := h + [Issued(cmd, clk)];
    assert h'[..|h|] == h;
    var stated := UpdateStates(cfg, ch, cmd).value;
    var ch' := Issue(cfg, ch, cmd, clk).value;
    forall b, kind | b in ch'.banks
      ensures ch'.banks[b].timing[Slot(kind)] == Bound(cfg, h', b, kind)
    {
      StatesKeepTiming(cfg, ch, cmd, b);
      RaiseSlot(stated.banks[b].timing, Constraints(cfg, cmd, b), clk, kind);
      assert ch.banks[b].timing[Slot(kind)] == Bound(cfg, h, b, kind);
      assert View(cfg, h', b) == View(cfg, h, b) + [Imposed(Constraints(cfg, cmd, b), clk)];
      assert View(cfg, h', b)[..|h|] == View(cfg, h, b);
    }
  }

  lemma StatesKeepTiming(cfg: Config, ch: Channel, cmd: Command, b: BankId)
    requires ValidChannel(cfg, ch) && Addressed(cfg, cmd)
    requires UpdateStates(cfg, ch, cmd).Ok?
    requires b in ch.banks
    ensures b in UpdateStates(cfg, ch, cmd).value.banks
    ensures UpdateStates(cfg, ch, cmd).value.banks[b].timing == ch.banks[b].timing
  {
  }

  lemma IssueKeepsWindows(cfg: Config, ch: Channel, h: seq<Issued>, cmd: Command, clk: nat)
    requires ValidChannel(cfg, ch) && Issuable(cfg, ch, cmd, clk)
    requires Chronological(h, clk) && WindowsMatch(cfg, ch, h) && WindowsLegal(cfg, h)
    requires Issue(cfg, ch, cmd, clk).Ok?
    ensures WindowsMatch(cfg, Issue(cfg, ch, cmd, clk).value, h + [Issued(cmd, clk)])
    ensures WindowsLegal(cfg, h + [Issued(cmd, clk)])
  {
    var h' := h + [Issued(cmd, clk)];
    assert h'[..|h|] == h;
    var ch' := Issue(cfg, ch, cmd, clk).value;
    forall rank | 0 <= rank < cfg.ranks
      ensures WindowMatches(ch'.fourAw[rank], Activations(h', rank), 4, cfg.tFAW)
      ensures WindowLegal(Activations(h', rank), 4, cfg.tFAW)
      ensures cfg.IsGDDR() ==> WindowMatches(ch'.thirtyTwoAw[rank], Activations(h', rank), 32, cfg.t32AW)
      ensures cfg.IsGDDR() ==> WindowLegal(Activations(h', rank), 32, cfg.t32AW)
    {
      if cmd.kind.Activate? && cmd.addr.rank == rank {
        var acts := Activations(h, rank);
        ActivationsBefore(h, rank, clk);
        PushKeepsMatch(ch.fourAw[rank], acts, 4, cfg.tFAW, clk);
        PushKeepsLegal(ch.fourAw[rank], acts, 4, cfg.tFAW, clk);
        if cfg.IsGDDR() {
          PushKeepsMatch(ch.thirtyTwoAw[rank], acts, 32, cfg.t32AW, clk);
          PushKeepsLegal(ch.thirtyTwoAw[rank], acts, 32, cfg.t32AW, clk);
        }
      }
    }
  }

  lemma {:induction false} ActivationsBefore(h: seq<Issued>, rank: int, clk: nat)
    requires forall i :: 0 <= i < |h| ==> h[i].clk <= clk
    ensures forall i :: 0 <= i < |Activations(h, rank)| ==> Activations(h, rank)[i] <= clk
  {
    if h != [] {
      ActivationsBefore(h[..|h| - 1], rank, clk);
    }
  }

  lemma IssueKeepsPairs(cfg: Config, ch: Channel, h: seq<Issued>, cmd: Command, clk: nat)
    requires ValidChannel(cfg, ch) && Issuable(cfg, ch, cmd, clk)
    requires TablesMatch(cfg, ch, h) && PairwiseLegal(cfg, h)
    ensures PairwiseLegal(cfg, h + [Issued(cmd, clk)])
  {
    var h' := h + [Issued(cmd, clk)];
    forall i: nat, j: nat | i < j < |h'|
      ensures KeepsGaps(cfg, h', i, j)
    {
      forall b, g | cfg.HasBank(b) && Governs(h'[j].cmd, b) && Imposes(cfg, h', i, b, h'[j].cmd.kind, g)
        ensures h'[j].clk >= h'[i].clk + g.cycles
      {
        assert Imposes(cfg, h, i, b, h'[j].cmd.kind, g);
        if j < |h| {
          assert KeepsGaps(cfg, h, i, j);
        } else {
          BoundIsMaximum(cfg, h, b, cmd.kind);
        }
      }
    }
  }

  lemma IssueKeepsRows(cfg: Config, ch: Channel, h: seq<Issued>, cmd: Command, clk: nat)
    requires ValidChannel(cfg, ch) && Issuable(cfg, ch, cmd, clk)
    requires RowsMatch(ch, h) && RowsMet(h)
    requires Issue(cfg, ch, cmd, clk).Ok?
    ensures RowsMatch(Issue(cfg, ch, cmd, clk).value, h + [Issued(cmd, clk)])
    ensures RowsMet(h + [Issued(cmd, clk)])
  {
    var h', ch' := h + [Issued(cmd, clk)], Issue(cfg, ch, cmd, clk).value;
    assert h'[..|h|] == h;
    forall b | b in ch'.banks
      ensures OpenRow(h', b) == RowOf(ch'.banks[b])
    {
      assert OpenRow(h, b) == RowOf(ch.banks[b]);
      IssueRowState(cfg, ch, cmd, clk, b);
    }
    forall j | 0 <= j < |h'|
      ensures MeetsRow(h', j)
    {
      if j < |h| {
        assert MeetsRow(h, j) && h'[..j] == h[..j];
      } else if cmd.kind.IsReadWrite() {
        assert OpenRow(h, cmd.Bank()) == RowOf(ch.banks[cmd.Bank()]);
      }
    }
  }

  /** What issuing does to the open row of one bank. */
  lemma IssueRowState(cfg: Config, ch: Channel, cmd: Command, clk: nat, b: BankId)
    requires ValidChannel(cfg, ch) && Issuable(cfg, ch, cmd, clk)
    requires Issue(cfg, ch, cmd, clk).Ok? && b in ch.banks
    ensures RowOf(Issue(cfg, ch, cmd, clk).value.banks[b]) == RowAfter(cmd, b, RowOf(ch.banks[b]))
  {
    if Governs(cmd, b) {
      BankRow(ch.banks[b], cmd);
    }
  }

  lemma BankRow(bank: BankState, cmd: Command)
    requires UpdateState(bank, cmd).Ok?
    ensures RowOf(UpdateState(bank, cmd).value) == RowAfter(cmd, cmd.Bank(), RowOf(bank))
  {
  }

  lemma IssueKeepsHits(cfg: Config, ch: Channel, h: seq<Issued>, cmd: Command, clk: nat)
    requires ValidChannel(cfg, ch) && Issuable(cfg, ch, cmd, clk)
    requires HitsMatch(ch, h)
    requires Issue(cfg, ch, cmd, clk).Ok?
    ensures HitsMatch(Issue(cfg, ch, cmd, clk).value, h + [Issued(cmd, clk)])
  {
    var h', ch' := h + [Issued(cmd, clk)], Issue(cfg, ch, cmd, clk).value;
    assert h'[..|h|] == h;
    forall b | b in ch'.banks
      ensures Hits(h', b) == ch'.banks[b].rowHits
    {
      assert Hits(h, b) == ch.banks[b].rowHits;
      IssueCountsHits(cfg, ch, cmd, clk, b);
    }
  }

  lemma IssueCountsHits(cfg: Config, ch: Channel, cmd: Command, clk: nat, b: BankId)
    requires ValidChannel(cfg, ch) && Issuable(cfg, ch, cmd, clk)
    requires Issue(cfg, ch, cmd, clk).Ok? && b in ch.banks
    ensures Issue(cfg, ch, cmd, clk).value.banks[b].rowHits == HitsAfter(cmd, b, ch.banks[b].rowHits)
  {
    if Governs(cmd, b) {
      BankHits(ch.banks[b], cmd);
    }
  }

  lemma BankHits(bank: BankState, cmd: Command)
    requires UpdateState(bank, cmd).Ok?
    ensures UpdateState(bank, cmd).value.rowHits == HitsAfter(cmd, cmd.Bank(), bank.rowHits)
  {
  }

  /** Issuing a legal command never aborts and keeps the invariant with the longer history. */
  lemma IssueKeepsHistory(cfg: Config, ch: Channel, h: seq<Issued>, cmd: Command, clk: nat)
    requires HistoryInv(cfg, ch, h, clk)
    requires Issuable(cfg, ch, cmd, clk)
    ensures Issue(cfg, ch, cmd, clk).Ok?
    ensures HistoryInv(cfg, Issue(cfg, ch, cmd, clk).value, h + [Issued(cmd, clk)], clk)
  {
    if !cmd.kind.IsRankCommand() {
      assert Governs(cmd, cmd.Bank());
    }
    IssueKeepsTables(cfg, ch, h, cmd, clk);
    IssueKeepsWindows(cfg, ch, h, cmd, clk);
    IssueKeepsPairs(cfg, ch, h, cmd, clk);
    IssueKeepsRows(cfg, ch, h, cmd, clk);
    IssueKeepsHits(cfg, ch, h, cmd, clk);
  }

  // ---------------------------------------------------------------- ready commands are legal

  /** With self-refresh off no bank ever enters the SREF state. */
  ghost predicate Awake(ch: Channel) {
    forall b :: b in ch.banks ==> !ch.banks[b].state.SelfRefresh?
  }

  /** The requests the command queue and the refresh queue make. */
  predicate Serviceable(cmd: Command) {
    cmd.kind.IsReadWrite() || cmd.kind.IsRefresh()
  }

  /** In bank order, bank `b` is not before position (j, k). */
  predicate FromHere(b: BankId, j: nat, k: nat) {
    b.group > j || (b.group == j && b.bank >= k)
  }

  /** A rank command is answered either by what one bank needs first, or, when all of its banks
      are ready, by the command itself; nothing is issued only if some bank has to wait. */
  lemma {:induction false} RankReadyMeaning(cfg: Config, ch: Channel, cmd: Command, clk: nat, j: nat, k: nat, ready: nat)
    requires ValidChannel(cfg, ch) && 0 <= cmd.addr.rank < cfg.ranks
    requires cmd.kind.Refresh? && Awake(ch)
    requires j <= cfg.bankgroups && k <= cfg.banksPerGroup && (j == cfg.bankgroups ==> k == 0)
    requires ready <= j * cfg.banksPerGroup + k
    ensures RankReady(cfg, ch, cmd, clk, j, k, ready).Ok?
    ensures match RankReady(cfg, ch, cmd, clk, j, k, ready).value
            case Some(c) =>
              if c.kind == cmd.kind then
                && c == cmd
                && ready == j * cfg.banksPerGroup + k
                && forall b :: b in ch.banks && b.rank == cmd.addr.rank && FromHere(b, j, k)
                               ==> ReadyCommand(ch.banks[b], cmd, clk) == Ok(Some(cmd))
              else
                && c.kind.Precharge? && c.addr.rank == cmd.addr.rank && c.Bank() in ch.banks
                && ReadyCommand(ch.banks[c.Bank()], cmd, clk) == Ok(Some(Command(Precharge, cmd.addr, cmd.hexAddr)))
            case None =>
              || ready < j * cfg.banksPerGroup + k
              || exists b :: b in ch.banks && b.rank == cmd.addr.rank && ReadyCommand(ch.banks[b], cmd, clk) == Ok(None)
    decreases cfg.bankgroups - j, cfg.banksPerGroup - k
  {
    if j == cfg.bankgroups {
    } else if k == cfg.banksPerGroup {
      assert (j + 1) * cfg.banksPerGroup == j * cfg.banksPerGroup + k;
      RankReadyMeaning(cfg, ch, cmd, clk, j + 1, 0, ready);
    } else {
      var b := BankId(cmd.addr.rank, j, k);
      match ReadyCommand(ch.banks[b], cmd, clk).value {
        case None =>
          RankReadyMeaning(cfg, ch, cmd, clk, j, k + 1, ready);
        case Some(c) =>
          if c.kind == cmd.kind {
            RankReadyMeaning(cfg, ch, cmd, clk, j, k + 1, ready + 1);
          }
      }
    }
  }

  /** Whatever GetReadyCommand returns can be issued at once: no ready command is ever illegal. */
  lemma ReadyIsIssuable(cfg: Config, ch: Channel, cmd: Command, clk: nat)
    requires ValidChannel(cfg, ch) && Awake(ch)
    requires Addressed(cfg, cmd) && Serviceable(cmd)
    ensures GetReady(cfg, ch, cmd, clk).Ok?
    ensures GetReady(cfg, ch, cmd, clk).value.Some? ==> Issuable(cfg, ch, GetReady(cfg, ch, cmd, clk).value.value, clk)
  {
    if cmd.kind.IsRankCommand() {
      RankReadyMeaning(cfg, ch, cmd, clk, 0, 0, 0);
    }
  }

  /** Legal commands other than SREF_ENTER keep every bank awake. */
  lemma IssueKeepsAwake(cfg: Config, ch: Channel, cmd: Command, clk: nat)
    requires ValidChannel(cfg, ch) && Awake(ch) && Addressed(cfg, cmd)
    requires !cmd.kind.SrefEnter?
    requires Issue(cfg, ch, cmd, clk).Ok?
    ensures Awake(Issue(cfg, ch, cmd, clk).value)
  {
  }
}
