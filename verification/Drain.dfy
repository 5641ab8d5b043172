/** A rank-level refresh at the front of the refresh queue is eventually issued, and until then
    only precharges reach its rank. */
module Drain {
  import opened Basics
  import opened DramTypes
  import opened Timing
  import opened Bank
  import opened Channel
  import opened CommandQueues
  import opened History
  import opened Controller
  import opened OrderingSchedule
  import opened DualIssue
  import opened Runs

  predicate RankFront(s: State, rank: int) {
    s.ch.refreshQ != [] && s.ch.refreshQ[0] == RefreshRankCommand(rank)
  }

  // ---------------------------------------------------------------- the measure

  ghost function OpenBanks(ch: Channel, rank: int): set<BankId> {
    set b | b in ch.banks && b.rank == rank && ch.banks[b].IsRowOpen()
  }

  /** From cycle `t` on, no timing keeps the rank from a precharge or a refresh. */
  ghost predicate Settled(ch: Channel, rank: int, t: nat) {
    forall b :: b in ch.banks && b.rank == rank ==>
                  ch.banks[b].timing[Slot(Precharge)] <= t && ch.banks[b].timing[Slot(Refresh)] <= t
  }

  lemma {:induction false} SettledOn(m: map<BankId, BankState>) returns (t: nat)
    ensures forall b :: b in m ==> m[b].timing[Slot(Precharge)] <= t && m[b].timing[Slot(Refresh)] <= t
    decreases |m|
  {
    if |m| == 0 {
      t := 0;
    } else {
      var b :| b in m;
      var rest := m - {b};
      assert |rest| < |m| by { assert rest.Keys == m.Keys - {b}; }
      var u := SettledOn(rest);
      t := Max(u, Max(m[b].timing[Slot(Precharge)], m[b].timing[Slot(Refresh)]));
      forall c | c in m
        ensures m[c].timing[Slot(Precharge)] <= t && m[c].timing[Slot(Refresh)] <= t
      {
        if c != b {
          assert c in rest;
        }
      }
    }
  }

  // ---------------------------------------------------------------- one command

  /** A command to another rank touches neither the rows of this rank nor the timing that its
      precharges and refreshes depend on. */
  lemma OtherRankCommand(cfg: Config, ch: Channel, cmd: Command, clk: nat, b: BankId)
    requires ValidChannel(cfg, ch) && Addressed(cfg, cmd) && !cmd.kind.IsRankCommand()
    requires b in ch.banks && b.rank != cmd.addr.rank
    requires Issue(cfg, ch, cmd, clk).Ok?
    ensures var ch' := Issue(cfg, ch, cmd, clk).value;
            && ch'.banks[b].state == ch.banks[b].state
            && ch'.banks[b].timing[Slot(Precharge)] == ch.banks[b].timing[Slot(Precharge)]
            && ch'.banks[b].timing[Slot(Refresh)] == ch.banks[b].timing[Slot(Refresh)]
  {
    IssueSlot(cfg, ch, cmd, clk, b, Precharge);
    IssueSlot(cfg, ch, cmd, clk, b, Refresh);
    NoRowGaps(cfg, cmd.kind, clk);
  }

  lemma NoRowGaps(cfg: Config, kind: CommandType, clk: nat)
    ensures LatestDeadline(OtherRanks(cfg, kind), Precharge, clk) == 0
    ensures LatestDeadline(OtherRanks(cfg, kind), Refresh, clk) == 0
  {
    LatestDeadlineIsMaximum(OtherRanks(cfg, kind), Precharge, clk);
    LatestDeadlineIsMaximum(OtherRanks(cfg, kind), Refresh, clk);
  }

  lemma OtherRankKeepsMeasure(cfg: Config, ch: Channel, cmd: Command, clk: nat, rank: int, t: nat)
    requires ValidChannel(cfg, ch) && Addressed(cfg, cmd) && !cmd.kind.IsRankCommand()
    requires cmd.addr.rank != rank
    requires Issue(cfg, ch, cmd, clk).Ok?
    ensures OpenBanks(Issue(cfg, ch, cmd, clk).value, rank) == OpenBanks(ch, rank)
    ensures Settled(ch, rank, t) ==> Settled(Issue(cfg, ch, cmd, clk).value, rank, t)
  {
    var ch' := Issue(cfg, ch, cmd, clk).value;
    forall b | b in ch.banks && b.rank == rank
      ensures ch'.banks[b].state == ch.banks[b].state
      ensures ch'.banks[b].timing[Slot(Precharge)] == ch.banks[b].timing[Slot(Precharge)]
      ensures ch'.banks[b].timing[Slot(Refresh)] == ch.banks[b].timing[Slot(Refresh)]
    {
      OtherRankCommand(cfg, ch, cmd, clk, b);
    }
  }

  lemma PrechargeCloses(cfg: Config, ch: Channel, cmd: Command, clk: nat)
    requires ValidChannel(cfg, ch) && Addressed(cfg, cmd) && cmd.kind.Precharge?
    requires Issue(cfg, ch, cmd, clk).Ok?
    ensures cmd.Bank() in OpenBanks(ch, cmd.addr.rank)
    ensures OpenBanks(Issue(cfg, ch, cmd, clk).value, cmd.addr.rank) == OpenBanks(ch, cmd.addr.rank) - {cmd.Bank()}
    ensures Issue(cfg, ch, cmd, clk).value.refreshQ == ch.refreshQ
  {
    var ch' := Issue(cfg, ch, cmd, clk).value;
    PrechargedState(cfg, ch, cmd, clk, cmd.Bank());
    forall b: BankId
      ensures b in OpenBanks(ch', cmd.addr.rank) <==> b in OpenBanks(ch, cmd.addr.rank) && b != cmd.Bank()
    {
      if b in ch.banks {
        PrechargedState(cfg, ch, cmd, clk, b);
      }
    }
  }

  lemma PrechargedState(cfg: Config, ch: Channel, cmd: Command, clk: nat, b: BankId)
    requires ValidChannel(cfg, ch) && Addressed(cfg, cmd) && cmd.kind.Precharge? && b in ch.banks
    requires Issue(cfg, ch, cmd, clk).Ok?
    ensures ch.banks[cmd.Bank()].state.Open?
    ensures b in Issue(cfg, ch, cmd, clk).value.banks
    ensures Issue(cfg, ch, cmd, clk).value.banks[b].state == if b == cmd.Bank() then Closed else ch.banks[b].state
  {
  }

  /** REFRESH is ready only when every bank of the rank is closed. */
  lemma RefreshNeedsClosedRank(cfg: Config, ch: Channel, ref: Command, clk: nat)
    requires ValidChannel(cfg, ch) && Awake(ch)
    requires ref.kind.Refresh? && Addressed(cfg, ref)
    requires GetReady(cfg, ch, ref, clk) == Ok(Some(ref))
    ensures OpenBanks(ch, ref.addr.rank) == {}
    ensures forall b :: b in ch.banks && b.rank == ref.addr.rank ==> ch.banks[b].timing[Slot(Refresh)] <= clk
  {
    RankReadyMeaning(cfg, ch, ref, clk, 0, 0, 0);
    forall b | b in ch.banks && b.rank == ref.addr.rank
      ensures !ch.banks[b].IsRowOpen() && ch.banks[b].timing[Slot(Refresh)] <= clk
    {
      assert ReadyCommand(ch.banks[b], ref, clk) == Ok(Some(ref));
    }
  }

  /** Once the rank is settled something is ready: a precharge or the refresh itself. */
  lemma SettledIsReady(cfg: Config, ch: Channel, ref: Command, clk: nat)
    requires ValidChannel(cfg, ch) && Awake(ch)
    requires ref.kind.Refresh? && Addressed(cfg, ref)
    requires Settled(ch, ref.addr.rank, clk)
    ensures GetReady(cfg, ch, ref, clk).Ok? && GetReady(cfg, ch, ref, clk).value.Some?
  {
    RankReadyMeaning(cfg, ch, ref, clk, 0, 0, 0);
  }

  // ---------------------------------------------------------------- one tick

  ghost predicate Extends(s: State, s': State) {
    s.shadow.history <= s'.shadow.history
  }

  /** Every new command that reaches the rank is a precharge. */
  ghost predicate OnlyPrecharges(s: State, s': State, rank: int) {
    && Extends(s, s')
    && forall i :: |s.shadow.history| <= i < |s'.shadow.history| && s'.shadow.history[i].cmd.addr.rank == rank
                   ==> s'.shadow.history[i].cmd.kind.Precharge?
  }

  /** While queues wait for a rank refresh, the queues yield no command for that rank. */
  lemma TakeAvoidsRank(cfg: Config, s: State, rank: int)
    requires Core(cfg, s) && cfg.Banks() > 0
    requires s.cq.inRef && s.cq.refIdx == RefIndices(cfg, RefreshRankCommand(rank))
    ensures TakePhase(cfg, s).Ok?
    ensures var c := TakePhase(cfg, s).value;
            c.cmd.Some? ==> c.cmd.value.addr.rank != rank && !c.cmd.value.kind.IsRankCommand() && !c.cmd.value.kind.IsRefresh()
  {
    TakeIsLegal(cfg, s.ch, s.cq, NumQueues(cfg));
    var t := Take(cfg, s.ch, s.cq, NumQueues(cfg)).value;
    if t.pick.Some? {
      var p := t.pick.value;
      QueueIndexInRange(cfg, s.cq.queues[p.queue][p.pos].Bank());
    }
  }

  /** What taking from the queues and issuing does during a drain of `rank`. */
  ghost predicate Undisturbed(s: State, s': State, rank: int, t: nat) {
    && s'.ch.refreshQ == s.ch.refreshQ
    && s'.cq.inRef == s.cq.inRef && s'.cq.refIdx == s.cq.refIdx
    && OpenBanks(s'.ch, rank) == OpenBanks(s.ch, rank)
    && (Settled(s.ch, rank, t) ==> Settled(s'.ch, rank, t))
    && OnlyPrecharges(s, s', rank)
  }

  lemma IssueElsewhere(cfg: Config, c: Chosen, rank: int, t: nat)
    requires ChosenInv(cfg, c) && c.cmd.Some?
    requires c.cmd.value.addr.rank != rank && !c.cmd.value.kind.IsRankCommand() && !c.cmd.value.kind.IsRefresh()
    ensures IssueCommand(cfg, c.s, c.cmd.value).Ok?
    ensures Undisturbed(c.s, IssueCommand(cfg, c.s, c.cmd.value).value, rank, t)
  {
    IssueChosen(cfg, c);
    IssueOtherRank(cfg, c.s, c.cmd.value, rank, t);
  }

  lemma IssueOtherRank(cfg: Config, s: State, cmd: Command, rank: int, t: nat)
    requires ValidChannel(cfg, s.ch) && Addressed(cfg, cmd)
    requires cmd.addr.rank != rank && !cmd.kind.IsRankCommand() && !cmd.kind.IsRefresh()
    requires IssueCommand(cfg, s, cmd).Ok?
    ensures Undisturbed(s, IssueCommand(cfg, s, cmd).value, rank, t)
  {
    AccountFrame(cfg, s, cmd);
    OtherRankKeepsMeasure(cfg, s.ch, cmd, s.clk, rank, t);
    OtherKeepsRefreshQueue(cfg, s, cmd);
  }

  lemma SecondElsewhere(cfg: Config, s: State, first: Command, rank: int, t: nat)
    requires MidInv(cfg, s, s.clk, s.rf)
    requires s.cq.inRef && s.cq.refIdx == RefIndices(cfg, RefreshRankCommand(rank))
    ensures SecondPhase(cfg, s, first).Ok? ==> Undisturbed(s, SecondPhase(cfg, s, first).value, rank, t)
  {
    TakeAvoidsRank(cfg, s, rank);
    TakeChoiceKeeps(cfg, s);
    TakePhaseKeeps(cfg, s);
    var second := TakePhase(cfg, s).value;
    if second.cmd.Some? && second.cmd.value.kind.IsReadWrite() != first.kind.IsReadWrite() {
      IssueElsewhere(cfg, second, rank, t);
    }
  }

  /** The rest of a tick whose first command is for another rank, or absent. */
  lemma IssueElsewherePhase(cfg: Config, c: Chosen, rank: int, t: nat)
    requires ChosenInv(cfg, c)
    requires c.s.cq.inRef && c.s.cq.refIdx == RefIndices(cfg, RefreshRankCommand(rank))
    requires c.cmd.Some? ==> c.cmd.value.addr.rank != rank && !c.cmd.value.kind.IsRankCommand() && !c.cmd.value.kind.IsRefresh()
    ensures IssuePhase(cfg, c).Ok?
    ensures Undisturbed(c.s, IssuePhase(cfg, c).value, rank, t)
  {
    IssuePhaseKeeps(cfg, c);
    if c.cmd.Some? {
      IssueElsewhere(cfg, c, rank, t);
      if cfg.dualCommand {
        IssueChosenMid(cfg, c);
        SecondElsewhere(cfg, IssueCommand(cfg, c.s, c.cmd.value).value, c.cmd.value, rank, t);
      }
    }
  }

  /** The tick closes one bank of the rank. */
  ghost predicate ClosesOne(s: State, s': State, rank: int) {
    && s'.ch.refreshQ == s.ch.refreshQ
    && OpenBanks(s'.ch, rank) < OpenBanks(s.ch, rank)
    && OnlyPrecharges(s, s', rank)
  }

  lemma PrechargeFirst(cfg: Config, s: State, cmd: Command)
    requires ValidChannel(cfg, s.ch) && Addressed(cfg, cmd) && cmd.kind.Precharge?
    requires IssueCommand(cfg, s, cmd).Ok?
    ensures ClosesOne(s, IssueCommand(cfg, s, cmd).value, cmd.addr.rank)
    ensures IssueCommand(cfg, s, cmd).value.cq == s.cq
  {
    AccountFrame(cfg, s, cmd);
    PrechargeCloses(cfg, s.ch, cmd, s.clk);
  }

  lemma ClosesThenUndisturbed(s: State, s1: State, s2: State, rank: int)
    requires ClosesOne(s, s1, rank) && Undisturbed(s1, s2, rank, 0)
    ensures ClosesOne(s, s2, rank)
  {
  }

  lemma IssuePrechargePhase(cfg: Config, c: Chosen, rank: int)
    requires ChosenInv(cfg, c) && c.cmd.Some? && c.cmd.value.kind.Precharge? && c.cmd.value.addr.rank == rank
    requires c.s.cq.inRef && c.s.cq.refIdx == RefIndices(cfg, RefreshRankCommand(rank))
    ensures IssuePhase(cfg, c).Ok?
    ensures ClosesOne(c.s, IssuePhase(cfg, c).value, rank)
  {
    IssuePhaseKeeps(cfg, c);
    IssueChosenMid(cfg, c);
    PrechargeFirst(cfg, c.s, c.cmd.value);
    if cfg.dualCommand {
      var first := IssueCommand(cfg, c.s, c.cmd.value).value;
      SecondElsewhere(cfg, first, c.cmd.value, rank, 0);
      ClosesThenUndisturbed(c.s, first, SecondPhase(cfg, first, c.cmd.value).value, rank);
    }
  }

  /** The tick issues the refresh of the rank first and removes exactly the front entry. */
  ghost predicate Refreshes(s: State, s': State, rank: int) {
    && RankFront(s, rank)
    && s'.ch.refreshQ == s.ch.refreshQ[1..]
    && Extends(s, s')
    && |s'.shadow.history| > |s.shadow.history|
    && s'.shadow.history[|s.shadow.history|] == Issued(RefreshRankCommand(rank), s.clk)
  }

  lemma RefreshDropsFront(cfg: Config, s: State, rank: int)
    requires ValidChannel(cfg, s.ch) && RankFront(s, rank) && Addressed(cfg, RefreshRankCommand(rank))
    requires IssueCommand(cfg, s, RefreshRankCommand(rank)).Ok?
    ensures Refreshes(s, IssueCommand(cfg, s, RefreshRankCommand(rank)).value, rank)
  {
  }

  lemma SecondKeepsRefreshes(cfg: Config, s: State, first: Command)
    requires MidInv(cfg, s, s.clk, s.rf)
    requires SecondPhase(cfg, s, first).Ok?
    ensures var s' := SecondPhase(cfg, s, first).value;
            s'.ch.refreshQ == s.ch.refreshQ && Extends(s, s')
  {
    TakeChoiceKeeps(cfg, s);
    TakePhaseKeeps(cfg, s);
    var second := TakePhase(cfg, s).value;
    if second.cmd.Some? && second.cmd.value.kind.IsReadWrite() != first.kind.IsReadWrite() {
      OtherKeepsRefreshQueue(cfg, second.s, second.cmd.value);
      AccountFrame(cfg, second.s, second.cmd.value);
    }
  }

  lemma IssueRefreshPhase(cfg: Config, c: Chosen, rank: int)
    requires ChosenInv(cfg, c) && c.cmd == Some(RefreshRankCommand(rank)) && RankFront(c.s, rank)
    ensures IssuePhase(cfg, c).Ok?
    ensures Refreshes(c.s, IssuePhase(cfg, c).value, rank)
  {
    IssuePhaseKeeps(cfg, c);
    IssueChosenMid(cfg, c);
    RefreshDropsFront(cfg, c.s, rank);
    if cfg.dualCommand {
      SecondKeepsRefreshes(cfg, IssueCommand(cfg, c.s, c.cmd.value).value, c.cmd.value);
    }
  }

  /** What a tick does while the refresh of `rank` is at the front: it issues the refresh, or
      closes a bank of the rank, or lets time pass towards the settling cycle `t`. */
  ghost predicate DrainsBy(s: State, s': State, rank: int, t: nat) {
    || Refreshes(s, s', rank)
    || ClosesOne(s, s', rank)
    || (Waits(s, s', rank, t) && s.clk < t)
  }

  /** The rank keeps its open banks and its settling cycle. */
  ghost predicate Waits(s: State, s': State, rank: int, t: nat) {
    && s'.ch.refreshQ == s.ch.refreshQ
    && OpenBanks(s'.ch, rank) == OpenBanks(s.ch, rank)
    && (Settled(s.ch, rank, t) ==> Settled(s'.ch, rank, t))
    && OnlyPrecharges(s, s', rank)
  }

  lemma FinishDecides(cfg: Config, s: State, rank: int)
    requires MidInv(cfg, s, s.clk, s.rf) && RankFront(s, rank)
    ensures FinishPhase(cfg, s).Ok?
    ensures var c := FinishPhase(cfg, s).value;
            && RankFront(c.s, rank) && c.s.ch == s.ch && c.s.clk == s.clk && c.s.shadow == s.shadow && c.s.rf == s.rf
            && match c.cmd
               case Some(cmd) =>
                 || cmd == RefreshRankCommand(rank)
                 || (cmd.kind.Precharge? && cmd.addr.rank == rank && Drains(cfg, c.s, rank))
               case None => Drains(cfg, c.s, rank) && forall t: nat :: Settled(s.ch, rank, t) ==> s.clk < t
  {
    FinishChoiceKeeps(cfg, s);
    FinishPhaseKeeps(cfg, s);
    FinishIsLegal(cfg, s);
    var f := RefreshStep(cfg, s.ch, s.cq).value;
    if f.cmd.Some? {
      FinishKind(cfg, s);
    } else {
      forall t: nat | Settled(s.ch, rank, t)
        ensures s.clk < t
      {
        if t <= s.clk {
          SettledIsReady(cfg, s.ch, s.ch.refreshQ[0], s.clk);
        }
      }
    }
  }

  /** The queues of the rank wait. */
  ghost predicate Drains(cfg: Config, s: State, rank: int) {
    cfg.Banks() > 0 && s.cq.inRef && s.cq.refIdx == RefIndices(cfg, RefreshRankCommand(rank))
  }

  /** No refresh-related command: the queues of other ranks go on. */
  lemma WaitCase(cfg: Config, s: State, rank: int, t: nat)
    requires MidInv(cfg, s, s.clk, s.rf) && Drains(cfg, s, rank)
    ensures TakePhase(cfg, s).Ok? && IssuePhase(cfg, TakePhase(cfg, s).value).Ok?
    ensures Waits(s, IssuePhase(cfg, TakePhase(cfg, s).value).value, rank, t)
  {
    TakeAvoidsRank(cfg, s, rank);
    TakeChoiceKeeps(cfg, s);
    TakePhaseKeeps(cfg, s);
    IssueElsewherePhase(cfg, TakePhase(cfg, s).value, rank, t);
  }

  /** A refresh-related command: a precharge of the rank or the refresh. */
  lemma FinishCase(cfg: Config, c: Chosen, rank: int)
    requires ChosenInv(cfg, c) && RankFront(c.s, rank) && c.cmd.Some?
    requires || c.cmd.value == RefreshRankCommand(rank)
             || (c.cmd.value.kind.Precharge? && c.cmd.value.addr.rank == rank && Drains(cfg, c.s, rank))
    ensures IssuePhase(cfg, c).Ok?
    ensures Refreshes(c.s, IssuePhase(cfg, c).value, rank) || ClosesOne(c.s, IssuePhase(cfg, c).value, rank)
  {
    if c.cmd.value.kind.Precharge? {
      IssuePrechargePhase(cfg, c, rank);
    } else {
      IssueRefreshPhase(cfg, c, rank);
    }
  }

  lemma FinishedMid(cfg: Config, s: State)
    requires MidInv(cfg, s, s.clk, s.rf)
    ensures FinishPhase(cfg, s).Ok? && ChosenInv(cfg, FinishPhase(cfg, s).value)
    ensures FinishPhase(cfg, s).value.cmd.None? ==> MidInv(cfg, FinishPhase(cfg, s).value.s, s.clk, s.rf)
  {
    FinishChoiceKeeps(cfg, s);
    FinishPhaseKeeps(cfg, s);
  }

  lemma MidDrain(cfg: Config, s: State, rank: int, t: nat)
    requires MidInv(cfg, s, s.clk, s.rf) && RankFront(s, rank)
    requires Settled(s.ch, rank, t)
    ensures ChoosePhase(cfg, s).Ok? && IssuePhase(cfg, ChoosePhase(cfg, s).value).Ok?
    ensures DrainsBy(s, IssuePhase(cfg, ChoosePhase(cfg, s).value).value, rank, t)
  {
    FinishDecides(cfg, s, rank);
    FinishedMid(cfg, s);
    var finished := FinishPhase(cfg, s).value;
    ChoiceIs(cfg, s, finished);
    if finished.cmd.None? {
      WaitCase(cfg, finished.s, rank, t);
    } else {
      FinishCase(cfg, finished, rank);
    }
  }

  lemma ChoiceIs(cfg: Config, s: State, finished: Chosen)
    requires Shaped(cfg, s) && FinishPhase(cfg, s) == Ok(finished)
    ensures ChoosePhase(cfg, s) == if finished.cmd.Some? then Ok(finished) else TakePhase(cfg, finished.s)
  {
  }

  // ---------------------------------------------------------------- whole ticks

  /** The same for a whole tick: besides, refreshes that become due join the end of the queue. */
  lemma DrainTick(cfg: Config, s: State, rank: int, t: nat)
    requires Inv(cfg, s) && RankFront(s, rank)
    requires Settled(s.ch, rank, t)
    ensures ClockTick(cfg, s).Ok? && Inv(cfg, ClockTick(cfg, s).value)
    ensures DrainsBy(RefreshPhase(cfg, s), ClockTick(cfg, s).value, rank, t)
    ensures ClockTick(cfg, s).value.clk == s.clk + 1
  {
    ClockTickKeeps(cfg, s);
    BeginKeeps(cfg, s);
    var begun := RefreshPhase(cfg, s);
    MidDrain(cfg, begun, rank, t);
    ChooseKeeps(cfg, begun);
    IssuePhaseKeeps(cfg, ChoosePhase(cfg, begun).value);
    var issued := IssuePhase(cfg, ChoosePhase(cfg, begun).value).value;
    ScheduleKeepsPending(cfg, issued);
    DrainsByFrame(begun, issued, ClockTick(cfg, s).value, rank, t);
  }

  lemma DrainsByFrame(s: State, s1: State, s2: State, rank: int, t: nat)
    requires DrainsBy(s, s1, rank, t)
    requires s2.ch == s1.ch && s2.shadow == s1.shadow
    ensures DrainsBy(s, s2, rank, t)
  {
  }
}
