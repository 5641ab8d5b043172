/** Dual command issue on HBM: when a second column command can still be ready in the cycle of
    the first, and what it takes for none to be lost. */
module DualIssue {
  import opened Basics
  import opened DramTypes
  import opened Timing
  import opened Bank
  import opened Channel
  import opened CommandQueues
  import opened History
  import opened Controller
  import opened Ordering
  import opened OrderingIssue

  /** Every column-to-column gap between two banks that the geometry has is positive. */
  predicate PositiveColumnGaps(cfg: Config) {
    && ReadToReadL(cfg) > 0 && ReadToWrite(cfg) > 0 && WriteToReadL(cfg) > 0
    && (cfg.bankgroups > 1 ==> ReadToReadS(cfg) > 0 && WriteToReadS(cfg) > 0)
    && (cfg.ranks > 1 ==>
          ReadToReadO(cfg) > 0 && ReadToWriteO(cfg) > 0 && WriteToReadO(cfg) > 0 && WriteToWriteO(cfg) > 0)
  }

  /** The bank is left open by the column command, or is another bank. */
  predicate StaysOpen(cmd: Command, b: BankId) {
    b != cmd.Bank() || cmd.kind.Read? || cmd.kind.Write?
  }

  function ColumnGap(toRead: int, toWrite: int, kind: CommandType): Gap
    requires kind.IsReadWrite()
  {
    Gap(kind, if kind.IsRead() then toRead else toWrite)
  }

  lemma ColumnGapIn(toRead: int, toWrite: int, kind: CommandType)
    requires kind.IsReadWrite()
    ensures ColumnGap(toRead, toWrite, kind) in ColumnGaps(toRead, toWrite)
  {
  }

  /** A column command constrains the next one at every bank it leaves open, by one gap. */
  lemma ColumnConstraint(cfg: Config, cmd: Command, b: BankId, kind: CommandType) returns (g: Gap)
    requires cmd.kind.IsReadWrite() && kind.IsReadWrite() && StaysOpen(cmd, b)
    requires PositiveColumnGaps(cfg) && cfg.HasBank(b) && cfg.HasBank(cmd.Bank())
    ensures g in Constraints(cfg, cmd, b) && g.next == kind && g.cycles > 0
  {
    if b.rank != cmd.addr.rank {
      var toRead := if cmd.kind.IsRead() then ReadToReadO(cfg) else WriteToReadO(cfg);
      var toWrite := if cmd.kind.IsRead() then ReadToWriteO(cfg) else WriteToWriteO(cfg);
      ColumnGapIn(toRead, toWrite, kind);
      g := ColumnGap(toRead, toWrite, kind);
      assert Constraints(cfg, cmd, b) == ColumnGaps(toRead, toWrite);
    } else if b.group != cmd.addr.bankgroup {
      var toRead := if cmd.kind.IsRead() then ReadToReadS(cfg) else WriteToReadS(cfg);
      var toWrite := if cmd.kind.IsRead() then ReadToWrite(cfg) else ReadToReadS(cfg);
      ColumnGapIn(toRead, toWrite, kind);
      g := ColumnGap(toRead, toWrite, kind);
      assert Constraints(cfg, cmd, b) == ColumnGaps(toRead, toWrite);
    } else {
      var toRead := if cmd.kind.IsRead() then ReadToReadL(cfg) else WriteToReadL(cfg);
      var toWrite := if cmd.kind.IsRead() then ReadToWrite(cfg) else ReadToReadL(cfg);
      ColumnGapIn(toRead, toWrite, kind);
      g := ColumnGap(toRead, toWrite, kind);
      assert ColumnGaps(toRead, toWrite) <= Constraints(cfg, cmd, b);
    }
  }

  /** The table entry after issuing: the old one or the latest deadline of the new command. */
  lemma IssueSlot(cfg: Config, ch: Channel, cmd: Command, clk: nat, b: BankId, kind: CommandType)
    requires ValidChannel(cfg, ch) && Addressed(cfg, cmd) && b in ch.banks
    requires Issue(cfg, ch, cmd, clk).Ok?
    ensures Issue(cfg, ch, cmd, clk).value.banks[b].timing[Slot(kind)]
         == Max(ch.banks[b].timing[Slot(kind)], LatestDeadline(Constraints(cfg, cmd, b), kind, clk))
  {
    StatesKeepTiming(cfg, ch, cmd, b);
    RaiseSlot(UpdateStates(cfg, ch, cmd).value.banks[b].timing, Constraints(cfg, cmd, b), clk, kind);
  }

  /** A column command is ready exactly when its row is open and its earliest cycle has come. */
  lemma ColumnReady(cfg: Config, ch: Channel, cmd: Command, clk: nat)
    requires ValidChannel(cfg, ch) && Awake(ch) && cmd.kind.IsReadWrite() && cfg.HasBank(cmd.Bank())
    ensures var bank := ch.banks[cmd.Bank()];
            GetReady(cfg, ch, cmd, clk) == Ok(Some(cmd))
            <==> bank.IsRowOpen() && bank.openRow == cmd.addr.row && bank.timing[Slot(cmd.kind)] <= clk
    ensures var r := GetReady(cfg, ch, cmd, clk);
            r.Ok? && r.value.Some? && r.value.value.kind.IsReadWrite() ==> r.value.value == cmd
  {
  }

  /** A column command changes no row but its own, and that only by auto-precharge. */
  lemma IssueRow(cfg: Config, ch: Channel, cmd: Command, clk: nat, b: BankId)
    requires ValidChannel(cfg, ch) && cmd.kind.IsReadWrite() && cfg.HasBank(cmd.Bank()) && b in ch.banks
    requires Issue(cfg, ch, cmd, clk).Ok?
    ensures var after := Issue(cfg, ch, cmd, clk).value.banks[b];
            if StaysOpen(cmd, b) then after.state == ch.banks[b].state && after.openRow == ch.banks[b].openRow
            else after.state.Closed?
  {
  }

  lemma LatestAtMost(gaps: seq<Gap>, kind: CommandType, clk: nat, bound: nat)
    ensures LatestDeadline(gaps, kind, clk) <= bound
       <==> forall g :: g in gaps && g.next == kind ==> Deadline(clk, g.cycles) <= bound
  {
  }

  /** No gap that `first` puts on `kind` at bank `b` reaches beyond the current cycle. */
  ghost predicate NoGapAhead(cfg: Config, first: Command, b: BankId, kind: CommandType, clk: nat) {
    forall g :: g in Constraints(cfg, first, b) && g.next == kind ==> Deadline(clk, g.cycles) <= clk
  }

  /** Exactly when a column command that is ready before the first one issues is still ready in
      the same cycle afterwards: its bank stays open and no gap to it is positive. */
  lemma StillReadyIff(cfg: Config, ch: Channel, first: Command, second: Command, clk: nat)
    requires ValidChannel(cfg, ch) && Awake(ch)
    requires first.kind.IsReadWrite() && second.kind.IsReadWrite()
    requires cfg.HasBank(first.Bank()) && cfg.HasBank(second.Bank())
    requires GetReady(cfg, ch, first, clk) == Ok(Some(first))
    requires GetReady(cfg, ch, second, clk) == Ok(Some(second))
    ensures Issue(cfg, ch, first, clk).Ok?
    ensures GetReady(cfg, Issue(cfg, ch, first, clk).value, second, clk) == Ok(Some(second))
       <==> StaysOpen(first, second.Bank()) && NoGapAhead(cfg, first, second.Bank(), second.kind, clk)
  {
    ColumnReady(cfg, ch, first, clk);
    ColumnReady(cfg, ch, second, clk);
    assert UpdateState(ch.banks[first.Bank()], first).Ok?;
    var b := second.Bank();
    IssueKeepsAwake(cfg, ch, first, clk);
    IssueSlot(cfg, ch, first, clk, b, second.kind);
    IssueRow(cfg, ch, first, clk, b);
    LatestAtMost(Constraints(cfg, first, b), second.kind, clk, clk);
    ColumnReady(cfg, Issue(cfg, ch, first, clk).value, second, clk);
  }

  /** With positive gaps no column command at all is ready in the cycle of another one. */
  lemma SecondColumnNotReady(cfg: Config, ch: Channel, first: Command, second: Command, clk: nat)
    requires ValidChannel(cfg, ch) && Awake(ch) && PositiveColumnGaps(cfg)
    requires first.kind.IsReadWrite() && second.kind.IsReadWrite()
    requires cfg.HasBank(first.Bank()) && cfg.HasBank(second.Bank())
    requires Issue(cfg, ch, first, clk).Ok?
    ensures var r := GetReady(cfg, Issue(cfg, ch, first, clk).value, second, clk);
            r.Ok? && r.value.Some? ==> !r.value.value.kind.IsReadWrite()
  {
    var b := second.Bank();
    IssueKeepsAwake(cfg, ch, first, clk);
    IssueRow(cfg, ch, first, clk, b);
    ColumnReady(cfg, Issue(cfg, ch, first, clk).value, second, clk);
    if StaysOpen(first, b) {
      var g := ColumnConstraint(cfg, first, b, second.kind);
      var gaps := Constraints(cfg, first, b);
      IssueSlot(cfg, ch, first, clk, b, second.kind);
      DeadlineCovered(gaps, second.kind, clk, g);
    }
  }

  lemma DeadlineCovered(gaps: seq<Gap>, kind: CommandType, clk: nat, g: Gap)
    requires g in gaps && g.next == kind
    ensures clk + g.cycles <= LatestDeadline(gaps, kind, clk)
  {
  }

  // ---------------------------------------------------------------- nothing is lost

  /** What waits for an address when nothing has been lost: one read while reads of it are
      pending and one write while a write of it is pending. */
  function Expected(s: State, a: nat): seq<bool> {
    (if HasAddr(s.pendRd, a) then [false] else []) + (if HasAddr(s.pendWr, a) then [true] else [])
  }

  ghost predicate ExactInv(cfg: Config, s: State)
    requires LineInv(cfg, s)
  {
    forall a: nat :: Line(cfg, s, a) == Expected(s, a)
  }

  /** Exact once `cmd`, just taken from its queue, has been issued. */
  ghost predicate ExactAfter(cfg: Config, s: State, cmd: Command)
    requires LineInv(cfg, s)
  {
    forall a: nat :: Line(cfg, s, a) == Expected(Account(cfg, s, cmd), a)
  }

  lemma AddKeepsExact(cfg: Config, s: State, req: Request)
    requires LineInv(cfg, s) && ExactInv(cfg, s) && LineInv(cfg, AddTransaction(cfg, s, req))
    ensures ExactInv(cfg, AddTransaction(cfg, s, req))
  {
    var s' := AddTransaction(cfg, s, req);
    var t := Transaction(req.addr, req.isWrite, s.clk, 0, |s.shadow.log|);
    forall a: nat
      ensures Line(cfg, s', a) == Expected(s', a)
    {
      assert Line(cfg, s, a) == Expected(s, a);
      assert LineOk(cfg, s, a);
      AddLine(cfg, s, req, a);
      HasAddrLast(s.pendRd, t, a);
      HasAddrLast(s.pendWr, t, a);
      AddPending(cfg, s, req);
    }
  }

  lemma AddPending(cfg: Config, s: State, req: Request)
    ensures var s' := AddTransaction(cfg, s, req);
            var t := Transaction(req.addr, req.isWrite, s.clk, 0, |s.shadow.log|);
            && s'.pendWr == (if req.isWrite && !HasAddr(s.pendWr, req.addr) then s.pendWr + [t] else s.pendWr)
            && s'.pendRd == (if !req.isWrite && !HasAddr(s.pendWr, req.addr) then s.pendRd + [t] else s.pendRd)
  {
  }

  /** The pending queues after issuing. */
  lemma AccountExpected(cfg: Config, s: State, cmd: Command, a: nat)
    requires forall i, j :: 0 <= i < j < |s.pendWr| ==> s.pendWr[i].addr != s.pendWr[j].addr
    ensures Expected(Account(cfg, s, cmd), a)
         == (if HasAddr(s.pendRd, a) && !(cmd.kind.IsRead() && cmd.hexAddr == a) then [false] else [])
            + (if HasAddr(s.pendWr, a) && !(cmd.kind.IsWrite() && cmd.hexAddr == a) then [true] else [])
  {
    WithoutAddrMembers(s.pendRd, cmd.hexAddr);
    DropFirstWriteMembers(s.pendWr, cmd.hexAddr);
    HasAddrByMember(s.pendRd, WithoutAddr(s.pendRd, cmd.hexAddr), cmd.hexAddr, a);
    HasAddrByMember(s.pendWr, DropFirstWrite(s.pendWr, cmd.hexAddr), cmd.hexAddr, a);
  }

  /** Taking a command leaves the lines as they are once it has been issued. */
  lemma TakeKeepsExact(cfg: Config, s: State, t: Taken)
    requires LineInv(cfg, s) && ExactInv(cfg, s)
    requires ValidChannel(cfg, s.ch) && TakenOk(cfg, s.ch, s.cq, t) && t.pick.Some?
    requires LineInv(cfg, s.(cq := t.qs)) && IssueReady(cfg, s.(cq := t.qs), t.pick.value.cmd)
    ensures ExactAfter(cfg, s.(cq := t.qs), t.pick.value.cmd)
  {
    var s' := s.(cq := t.qs);
    var p := t.pick.value;
    forall a: nat
      ensures Line(cfg, s', a) == Expected(Account(cfg, s', p.cmd), a)
    {
      assert Line(cfg, s, a) == Expected(s, a);
      assert LineOk(cfg, s, a);
      AccountExpected(cfg, s', p.cmd, a);
      if p.cmd.kind.IsReadWrite() {
        var q := s.cq.queues[p.queue];
        var i: nat :| i < |q| && q[i] == p.cmd && t.qs.queues == s.cq.queues[p.queue := RemoveAt(q, i)];
        var pre, post := TakeLine(cfg, s, t.qs, p.queue, i, a);
        if p.cmd.hexAddr == a {
          LineWithout(pre, p.cmd.kind.IsWrite(), post);
          ExactRemoval(pre, p.cmd.kind.IsWrite(), post, HasAddr(s.pendRd, a), HasAddr(s.pendWr, a));
        }
      } else {
        assert Waiting(cfg, s') == Waiting(cfg, s);
      }
    }
  }

  lemma ExactRemoval(p: seq<bool>, w: bool, r: seq<bool>, rd: bool, wr: bool)
    requires p + [w] + r == (if rd then [false] else []) + (if wr then [true] else [])
    ensures p + r == (if rd && w then [false] else []) + (if wr && !w then [true] else [])
  {
    var l := p + [w] + r;
    assert l[|p|] == w;
    if |l| == 2 {
      if |p| == 0 {
        assert p + r == [l[1]];
      } else {
        assert p + r == [l[0]];
      }
    } else {
      assert p + r == [];
    }
  }

  lemma AccountKeepsExact(cfg: Config, s: State, cmd: Command)
    requires LineInv(cfg, s) && IssueReady(cfg, s, cmd) && ExactAfter(cfg, s, cmd)
    ensures LineInv(cfg, Account(cfg, s, cmd)) && ExactInv(cfg, Account(cfg, s, cmd))
  {
    AccountKeepsLines(cfg, s, cmd);
  }
}
