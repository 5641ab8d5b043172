/** Which command the queues yield, and that one is yielded whenever there is one (command_queue.cc,
    controller.cc). */
module Arbitration {
  import opened Basics
  import opened Arithmetic
  import opened DramTypes
  import opened Channel
  import opened CommandQueues
  import opened History
  import opened Controller
  import opened OrderingSchedule
  import opened Runs
  import opened Readiness

  // ---------------------------------------------------------------- what can be issued

  /** Position `pos` of the queue is ready, or what it needs first is, and arbitration lets it. */
  predicate CanGo(cfg: Config, ch: Channel, q: seq<Command>, pos: nat, clk: nat)
    requires ValidChannel(cfg, ch) && pos < |q| && cfg.HasBank(q[pos].Bank()) && q[pos].kind.IsReadWrite()
  {
    var r := GetReady(cfg, ch, q[pos], clk);
    r.Ok? && r.value.Some? && Eligible(ch, q, pos, r.value.value)
  }

  /** The same for position `pos` of queue `k`. */
  predicate Goes(cfg: Config, ch: Channel, qs: Queues, k: nat, pos: nat)
    requires ValidChannel(cfg, ch) && ValidQueues(cfg, qs) && k < |qs.queues| && pos < |qs.queues[k]|
  {
    assert Placed(cfg, qs.queues[k][pos], k);
    CanGo(cfg, ch, qs.queues[k], pos, qs.clk)
  }

  /** The queue waits for a refresh. */
  predicate HeldBack(qs: Queues, k: nat) {
    qs.inRef && k in qs.refIdx
  }

  /** The queue has nothing to offer. */
  ghost predicate Silent(cfg: Config, ch: Channel, qs: Queues, k: nat)
    requires ValidChannel(cfg, ch) && ValidQueues(cfg, qs) && k < |qs.queues|
  {
    HeldBack(qs, k) || forall pos: nat :: pos < |qs.queues[k]| ==> !Goes(cfg, ch, qs, k, pos)
  }

  /** The pick is the first position of its queue that can go, with the command that it yields. */
  ghost predicate FirstInQueue(cfg: Config, ch: Channel, qs: Queues, p: Pick)
    requires ValidChannel(cfg, ch) && ValidQueues(cfg, qs)
  {
    && p.queue < |qs.queues| && p.pos < |qs.queues[p.queue]|
    && !HeldBack(qs, p.queue)
    && Goes(cfg, ch, qs, p.queue, p.pos)
    && GetReady(cfg, ch, qs.queues[p.queue][p.pos], qs.clk) == Ok(Some(p.cmd))
    && forall pos: nat :: pos < p.pos ==> !Goes(cfg, ch, qs, p.queue, pos)
  }

  lemma {:induction false} FirstReadyIsFirst(cfg: Config, ch: Channel, qs: Queues, k: nat, j: nat)
    requires ValidChannel(cfg, ch) && Awake(ch) && ValidQueues(cfg, qs) && k < |qs.queues| && j <= |qs.queues[k]|
    requires !HeldBack(qs, k) && forall pos: nat :: pos < j ==> !Goes(cfg, ch, qs, k, pos)
    ensures FirstReady(cfg, ch, qs.queues[k], k, qs.clk, j).Ok?
    ensures match FirstReady(cfg, ch, qs.queues[k], k, qs.clk, j).value
            case None => Silent(cfg, ch, qs, k)
            case Some(p) => p.queue == k && FirstInQueue(cfg, ch, qs, p)
    decreases |qs.queues[k]| - j
  {
    if j < |qs.queues[k]| {
      assert Placed(cfg, qs.queues[k][j], k);
      ReadyIsIssuable(cfg, ch, qs.queues[k][j], qs.clk);
      if !Goes(cfg, ch, qs, k, j) {
        FirstReadyIsFirst(cfg, ch, qs, k, j + 1);
      }
    }
  }

  // ---------------------------------------------------------------- round robin

  /** The queue that comes `d` turns after the index. */
  function Turn(qs: Queues, d: nat): nat
    requires |qs.queues| > 0
  {
    (qs.idx + d) % |qs.queues|
  }

  lemma NextIsTurn(cfg: Config, qs: Queues, d: nat)
    requires ValidQueues(cfg, qs)
    ensures |qs.queues| > 0 && NextIndex(cfg, qs.idx) == Turn(qs, 1)
    ensures Turn(qs.(idx := Turn(qs, 1)), d) == Turn(qs, d + 1)
  {
    var m := |qs.queues|;
    if qs.idx + 1 < m {
      Digits(0, qs.idx + 1, m);
    } else {
      Digits(1, 0, m);
      var x := qs.idx + 1 + d;
      assert x == d + m;
      assert d == (d / m) * m + d % m;
      Distribute(d / m, 1, m);
      Digits(d / m + 1, d % m, m);
    }
  }

  /** The index does not matter for what a queue offers. */
  lemma IndexIsNothing(cfg: Config, ch: Channel, qs: Queues, idx: nat, k: nat)
    requires ValidChannel(cfg, ch) && ValidQueues(cfg, qs) && k < |qs.queues| && idx < |qs.queues|
    ensures Silent(cfg, ch, qs.(idx := idx), k) <==> Silent(cfg, ch, qs, k)
  {
    var qs' := qs.(idx := idx);
    forall pos: nat | pos < |qs.queues[k]|
      ensures Goes(cfg, ch, qs', k, pos) <==> Goes(cfg, ch, qs, k, pos)
    {
    }
  }

  /** All queues of the next `n` turns are silent. */
  ghost predicate AllSilent(cfg: Config, ch: Channel, qs: Queues, n: nat)
    requires ValidChannel(cfg, ch) && ValidQueues(cfg, qs) && |qs.queues| > 0
  {
    forall d: nat :: 1 <= d <= n ==> Silent(cfg, ch, qs, Turn(qs, d))
  }

  /** What taking means: the first queue, in turn, that is not silent yields its first position that
      can go, and the index stays there; nothing is taken only if all turns are silent. */
  ghost predicate RoundRobin(cfg: Config, ch: Channel, qs: Queues, n: nat, t: Taken, d: nat)
    requires ValidChannel(cfg, ch) && ValidQueues(cfg, qs) && |qs.queues| > 0
  {
    match t.pick
    case None => AllSilent(cfg, ch, qs, n) && t.qs == qs.(idx := Turn(qs, n))
    case Some(p) =>
      && 1 <= d <= n
      && p.queue == Turn(qs, d)
      && AllSilent(cfg, ch, qs, d - 1)
      && FirstInQueue(cfg, ch, qs, p)
      && t.qs.idx == p.queue
  }

  /** Turns counted from the next index. */
  lemma SilentFromNext(cfg: Config, ch: Channel, qs: Queues, n: nat)
    requires ValidChannel(cfg, ch) && ValidQueues(cfg, qs) && |qs.queues| > 0
    requires Silent(cfg, ch, qs, Turn(qs, 1)) && AllSilent(cfg, ch, qs.(idx := Turn(qs, 1)), n)
    ensures AllSilent(cfg, ch, qs, n + 1)
  {
    var next := qs.(idx := Turn(qs, 1));
    forall d: nat | 1 <= d <= n + 1
      ensures Silent(cfg, ch, qs, Turn(qs, d))
    {
      if d > 1 {
        NextIsTurn(cfg, qs, d - 1);
        assert Silent(cfg, ch, next, Turn(next, d - 1));
        IndexIsNothing(cfg, ch, qs, Turn(qs, 1), Turn(qs, d));
      }
    }
  }

  lemma FirstFromNext(cfg: Config, ch: Channel, qs: Queues, idx: nat, p: Pick)
    requires ValidChannel(cfg, ch) && ValidQueues(cfg, qs) && idx < |qs.queues|
    requires FirstInQueue(cfg, ch, qs.(idx := idx), p)
    ensures FirstInQueue(cfg, ch, qs, p)
  {
    var qs' := qs.(idx := idx);
    forall pos: nat | pos < |qs.queues[p.queue]|
      ensures Goes(cfg, ch, qs', p.queue, pos) <==> Goes(cfg, ch, qs, p.queue, pos)
    {
    }
  }

  /** One more turn in front of a search. */
  lemma RoundRobinFromNext(cfg: Config, ch: Channel, qs: Queues, n: nat, t: Taken, d: nat)
    requires ValidChannel(cfg, ch) && ValidQueues(cfg, qs) && |qs.queues| > 0
    requires Silent(cfg, ch, qs, Turn(qs, 1)) && RoundRobin(cfg, ch, qs.(idx := Turn(qs, 1)), n, t, d)
    ensures RoundRobin(cfg, ch, qs, n + 1, t, d + 1)
  {
    var next := qs.(idx := Turn(qs, 1));
    if t.pick.None? {
      SilentFromNext(cfg, ch, qs, n);
      NextIsTurn(cfg, qs, n);
    } else {
      SilentFromNext(cfg, ch, qs, d - 1);
      NextIsTurn(cfg, qs, d);
      FirstFromNext(cfg, ch, qs, Turn(qs, 1), t.pick.value);
    }
  }

  lemma TakeSkips(cfg: Config, ch: Channel, qs: Queues, n: nat)
    requires ValidChannel(cfg, ch) && Awake(ch) && ValidQueues(cfg, qs) && n > 0
    requires |qs.queues| > 0 && Silent(cfg, ch, qs, Turn(qs, 1))
    ensures Take(cfg, ch, qs, n) == Take(cfg, ch, qs.(idx := Turn(qs, 1)), n - 1)
  {
    var next := qs.(idx := Turn(qs, 1));
    NextIsTurn(cfg, qs, 0);
    IndexIsNothing(cfg, ch, qs, next.idx, next.idx);
    if !HeldBack(next, next.idx) {
      FirstReadyIsFirst(cfg, ch, next, next.idx, 0);
    }
  }

  lemma TakePicks(cfg: Config, ch: Channel, qs: Queues, n: nat) returns (p: Pick)
    requires ValidChannel(cfg, ch) && Awake(ch) && ValidQueues(cfg, qs) && n > 0
    requires |qs.queues| > 0 && !Silent(cfg, ch, qs, Turn(qs, 1))
    ensures FirstInQueue(cfg, ch, qs, p) && p.queue == Turn(qs, 1)
    ensures Take(cfg, ch, qs, n).Ok?
    ensures var t := Take(cfg, ch, qs, n).value; t.pick == Some(p) && t.qs.idx == Turn(qs, 1)
  {
    var next := qs.(idx := Turn(qs, 1));
    NextIsTurn(cfg, qs, 0);
    IndexIsNothing(cfg, ch, qs, next.idx, next.idx);
    FirstReadyIsFirst(cfg, ch, next, next.idx, 0);
    p := FirstReady(cfg, ch, next.queues[next.idx], next.idx, next.clk, 0).value.value;
    FirstFromNext(cfg, ch, qs, next.idx, p);
    PickIsLegal(cfg, ch, next, p);
  }

  /** GetCommandToIssue over `n` turns. */
  lemma {:induction false} TakeIsRoundRobin(cfg: Config, ch: Channel, qs: Queues, n: nat) returns (d: nat)
    requires ValidChannel(cfg, ch) && Awake(ch) && ValidQueues(cfg, qs)
    ensures Take(cfg, ch, qs, n).Ok? && |qs.queues| > 0
    ensures RoundRobin(cfg, ch, qs, n, Take(cfg, ch, qs, n).value, d)
    decreases n
  {
    NextIsTurn(cfg, qs, 0);
    d := 0;
    if n == 0 {
      Digits(0, qs.idx, |qs.queues|);
    } else if Silent(cfg, ch, qs, Turn(qs, 1)) {
      TakeSkips(cfg, ch, qs, n);
      d := TakeIsRoundRobin(cfg, ch, qs.(idx := Turn(qs, 1)), n - 1);
      RoundRobinFromNext(cfg, ch, qs, n - 1, Take(cfg, ch, qs, n).value, d);
      d := d + 1;
    } else {
      var _ := TakePicks(cfg, ch, qs, n);
      d := 1;
    }
  }

  /** Every queue has its turn in one round. */
  lemma TurnOf(qs: Queues, k: nat) returns (d: nat)
    requires qs.idx < |qs.queues| && k < |qs.queues|
    ensures 1 <= d <= |qs.queues| && Turn(qs, d) == k
  {
    var m := |qs.queues|;
    if k > qs.idx {
      d := k - qs.idx;
      Digits(0, k, m);
    } else {
      d := k + m - qs.idx;
      Digits(1, k, m);
    }
  }

  /** No queue has anything to offer. */
  ghost predicate NothingGoes(cfg: Config, ch: Channel, qs: Queues)
    requires ValidChannel(cfg, ch) && ValidQueues(cfg, qs)
  {
    forall k: nat :: k < |qs.queues| ==> Silent(cfg, ch, qs, k)
  }

  lemma RoundIsComplete(cfg: Config, ch: Channel, qs: Queues, t: Taken, d: nat)
    requires ValidChannel(cfg, ch) && ValidQueues(cfg, qs) && |qs.queues| > 0
    requires RoundRobin(cfg, ch, qs, |qs.queues|, t, d)
    ensures t.pick.None? <==> NothingGoes(cfg, ch, qs)
  {
    if t.pick.None? {
      forall k: nat | k < |qs.queues|
        ensures Silent(cfg, ch, qs, k)
      {
        var e := TurnOf(qs, k);
        assert Silent(cfg, ch, qs, Turn(qs, e));
      }
    } else {
      assert !Silent(cfg, ch, qs, t.pick.value.queue);
    }
  }

  /** A whole round takes nothing exactly if no position of any queue that is not held back can go;
      otherwise it takes the first such position of the first such queue, in turn. */
  lemma RoundTakesIff(cfg: Config, ch: Channel, qs: Queues) returns (d: nat)
    requires ValidChannel(cfg, ch) && Awake(ch) && ValidQueues(cfg, qs)
    ensures Take(cfg, ch, qs, NumQueues(cfg)).Ok? && |qs.queues| > 0
    ensures RoundRobin(cfg, ch, qs, NumQueues(cfg), Take(cfg, ch, qs, NumQueues(cfg)).value, d)
    ensures Take(cfg, ch, qs, NumQueues(cfg)).value.pick.None? <==> NothingGoes(cfg, ch, qs)
  {
    d := TakeIsRoundRobin(cfg, ch, qs, NumQueues(cfg));
    RoundIsComplete(cfg, ch, qs, Take(cfg, ch, qs, NumQueues(cfg)).value, d);
  }

  // ---------------------------------------------------------------- ticks

  lemma TakePhaseTakes(cfg: Config, s: State) returns (t: Taken, d: nat)
    requires Shaped(cfg, s)
    ensures TakePhase(cfg, s).Ok? && |s.cq.queues| > 0
    ensures TakePhase(cfg, s).value == Chosen(s.(cq := t.qs), if t.pick.None? then None else Some(t.pick.value.cmd))
    ensures RoundRobin(cfg, s.ch, s.cq, NumQueues(cfg), t, d)
    ensures t.pick.None? <==> NothingGoes(cfg, s.ch, s.cq)
  {
    d := RoundTakesIff(cfg, s.ch, s.cq);
    t := Take(cfg, s.ch, s.cq, NumQueues(cfg)).value;
  }

  /** What issuing a choice appends to the history starts with it. */
  predicate Appends(before: seq<Issued>, after: seq<Issued>, cmd: Option<Command>, clk: nat) {
    if cmd.None? then after == before else before + [Issued(cmd.value, clk)] <= after
  }

  lemma SecondAppends(cfg: Config, s: State, first: Command)
    requires Shaped(cfg, s) && SecondPhase(cfg, s, first).Ok?
    ensures s.shadow.history <= SecondPhase(cfg, s, first).value.shadow.history
  {
    var second := TakePhase(cfg, s).value;
    if second.cmd.Some? && second.cmd.value.kind.IsReadWrite() != first.kind.IsReadWrite() {
      AccountFrame(cfg, second.s, second.cmd.value);
    }
  }

  lemma IssuePhaseAppends(cfg: Config, c: Chosen)
    requires ChosenOk(cfg, c) && IssuePhase(cfg, c).Ok?
    ensures Appends(c.s.shadow.history, IssuePhase(cfg, c).value.shadow.history, c.cmd, c.s.clk)
  {
    if c.cmd.Some? {
      IssueIsShaped(cfg, c.s, c.cmd.value);
      AccountFrame(cfg, c.s, c.cmd.value);
      if cfg.dualCommand {
        SecondAppends(cfg, IssueCommand(cfg, c.s, c.cmd.value).value, c.cmd.value);
      }
    }
  }

  /** A tick issues what its choosing phase yields. */
  lemma TickAppends(cfg: Config, s: State)
    requires Inv(cfg, s)
    ensures ClockTick(cfg, s).Ok? && ChoosePhase(cfg, RefreshPhase(cfg, s)).Ok?
    ensures var c := ChoosePhase(cfg, RefreshPhase(cfg, s)).value;
            Appends(s.shadow.history, ClockTick(cfg, s).value.shadow.history, c.cmd, s.clk)
  {
    ClockTickKeeps(cfg, s);
    BeginKeeps(cfg, s);
    var begun := RefreshPhase(cfg, s);
    ChooseKeeps(cfg, begun);
    var c := ChoosePhase(cfg, begun).value;
    ChoiceKeepsHistory(cfg, begun);
    IssuePhaseAppends(cfg, c);
    ScheduleKeepsPending(cfg, IssuePhase(cfg, c).value);
  }

  lemma ChoiceKeepsHistory(cfg: Config, s: State)
    requires Shaped(cfg, s) && ChoosePhase(cfg, s).Ok?
    ensures ChoosePhase(cfg, s).value.s.shadow == s.shadow
  {
  }

  /** With no refresh waiting, a tick of a run issues a command exactly if some queue offers one, and
      then it issues the first one in turn. */
  lemma TickIssuesIff(cfg: Config, states: seq<State>, inputs: seq<Input>, n: nat) returns (t: Taken, d: nat)
    requires Behaviour(cfg, states, inputs) && n < |states|
    requires Shaped(cfg, states[n]) && RefreshPhase(cfg, states[n]).ch.refreshQ == []
    ensures ClockTick(cfg, states[n]).Ok? && |states[n].cq.queues| > 0
    ensures var s, after := states[n], ClockTick(cfg, states[n]).value.shadow.history;
            && RoundRobin(cfg, s.ch, s.cq, |s.cq.queues|, t, d)
            && Appends(s.shadow.history, after, if t.pick.None? then None else Some(t.pick.value.cmd), s.clk)
            && (after == s.shadow.history <==> NothingGoes(cfg, s.ch, s.cq))
  {
    BehaviourKeepsInv(cfg, states, inputs, n);
    var s := states[n];
    TickAppends(cfg, s);
    assert RefreshPhase(cfg, s).ch == s.ch;
    t, d := TakePhaseTakes(cfg, RefreshPhase(cfg, s));
  }

  /** A refresh that waits and cannot proceed does not keep the other queues from issuing: then, too,
      nothing is issued exactly if no queue that is not held back offers anything. */
  lemma RefreshLetsOthersGo(cfg: Config, s: State) returns (t: Taken, d: nat)
    requires Inv(cfg, s)
    ensures ClockTick(cfg, s).Ok? && FinishPhase(cfg, RefreshPhase(cfg, s)).Ok?
    ensures var finished := FinishPhase(cfg, RefreshPhase(cfg, s)).value;
            finished.cmd.None? ==>
              && |finished.s.cq.queues| > 0 && ValidChannel(cfg, finished.s.ch) && ValidQueues(cfg, finished.s.cq)
              && RoundRobin(cfg, finished.s.ch, finished.s.cq, |finished.s.cq.queues|, t, d)
              && Appends(s.shadow.history, ClockTick(cfg, s).value.shadow.history,
                         if t.pick.None? then None else Some(t.pick.value.cmd), s.clk)
              && (t.pick.None? <==> NothingGoes(cfg, finished.s.ch, finished.s.cq))
  {
    BeginKeeps(cfg, s);
    FinishPhaseKeeps(cfg, RefreshPhase(cfg, s));
    TickAppends(cfg, s);
    t, d := TakePhaseTakes(cfg, FinishPhase(cfg, RefreshPhase(cfg, s)).value.s);
  }

  // ---------------------------------------------------------------- what holds a position back

  /** Two commands have their own queue entry of the same place. */
  predicate SamePlace(a: Command, b: Command) {
    && a.addr.bankgroup == b.addr.bankgroup && a.addr.bank == b.addr.bank
    && a.addr.row == b.addr.row && a.addr.column == b.addr.column
  }

  /** No read ahead in the queue is for the same place. */
  predicate NoReadAhead(q: seq<Command>, pos: nat)
    requires pos < |q|
  {
    forall i :: 0 <= i < pos ==> !(q[i].kind.IsRead() && SamePlace(q[i], q[pos]))
  }

  /** The bank's open row may be closed for this position: nothing ahead in the queue wants the bank,
      and nothing behind wants the open row unless that has been hit four times. */
  predicate MayClose(h: seq<Issued>, q: seq<Command>, pos: nat)
    requires pos < |q|
  {
    var b := q[pos].Bank();
    && (forall i :: 0 <= i < pos ==> q[i].Bank() != b)
    && ((forall i :: pos <= i < |q| && q[i].Bank() == b ==> OpenRow(h, b) != Some(q[i].addr.row)) || Hits(h, b) >= 4)
  }

  /** Nothing keeps position `pos` from its next command at cycle `clk`. */
  ghost predicate Unhindered(cfg: Config, h: seq<Issued>, q: seq<Command>, pos: nat, clk: nat)
    requires pos < |q|
  {
    var next := Needs(h, q[pos]);
    && RulesMet(cfg, h, q[pos].Bank(), next, clk)
    && (next.Activate? ==> !Refused(cfg, h, q[pos].addr.rank, clk))
    && (next.Precharge? ==> MayClose(h, q, pos))
    && (next.IsWrite() ==> NoReadAhead(q, pos))
  }

  /** In every run a queued read or write can go exactly if no timing rule towards the command that
      its bank needs is running, its activation is not refused, its precharge is fair and its write
      has no read ahead. */
  lemma GoesIff(cfg: Config, states: seq<State>, inputs: seq<Input>, n: nat, k: nat, pos: nat)
    requires Behaviour(cfg, states, inputs) && n < |states|
    requires k < |states[n].cq.queues| && pos < |states[n].cq.queues[k]|
    ensures ValidChannel(cfg, states[n].ch) && ValidQueues(cfg, states[n].cq)
    ensures Goes(cfg, states[n].ch, states[n].cq, k, pos)
       <==> Unhindered(cfg, states[n].shadow.history, states[n].cq.queues[k], pos, states[n].clk)
  {
    BehaviourKeepsInv(cfg, states, inputs, n);
    var s, q := states[n], states[n].cq.queues[k];
    assert Placed(cfg, q[pos], k);
    ReadyIff(cfg, states, inputs, n, q[pos], s.clk);
    EligibleIff(s.ch, s.shadow.history, q, pos, Command(Needs(s.shadow.history, q[pos]), q[pos].addr, q[pos].hexAddr));
  }

  lemma EligibleIff(ch: Channel, h: seq<Issued>, q: seq<Command>, pos: nat, cmd: Command)
    requires pos < |q| && q[pos].Bank() in ch.banks && RowsMatch(ch, h) && HitsMatch(ch, h)
    requires cmd.kind.Precharge? ==> OpenRow(h, q[pos].Bank()).Some?
    ensures Eligible(ch, q, pos, cmd)
       <==> (cmd.kind.Precharge? ==> MayClose(h, q, pos)) && (cmd.kind.IsWrite() ==> NoReadAhead(q, pos))
  {
    var b := q[pos].Bank();
    assert OpenRow(h, b) == RowOf(ch.banks[b]) && Hits(h, b) == ch.banks[b].rowHits;
  }

  // ---------------------------------------------------------------- what a refresh holds back

  /** Each bank's queue is its own, or its rank's. */
  lemma QueueIsOwn(cfg: Config, b: BankId, c: BankId)
    requires cfg.HasBank(b) && cfg.HasBank(c)
    ensures QueueIndex(cfg, b) == QueueIndex(cfg, c) <==> if cfg.queueStructure.PerRank? then b.rank == c.rank else b == c
  {
    if cfg.queueStructure.PerBank? {
      QueueDigits(cfg, b);
      QueueDigits(cfg, c);
    }
  }

  lemma QueueDigits(cfg: Config, b: BankId)
    requires cfg.HasBank(b) && cfg.queueStructure.PerBank?
    ensures cfg.Banks() > 0
    ensures QueueIndex(cfg, b) / cfg.Banks() == b.rank
    ensures QueueIndex(cfg, b) % cfg.Banks() == b.group * cfg.banksPerGroup + b.bank
    ensures (QueueIndex(cfg, b) % cfg.Banks()) / cfg.banksPerGroup == b.group
    ensures (QueueIndex(cfg, b) % cfg.Banks()) % cfg.banksPerGroup == b.bank
  {
    var inner := b.group * cfg.banksPerGroup + b.bank;
    DigitBelow(b.group, cfg.bankgroups, b.bank, cfg.banksPerGroup);
    Digits(b.rank, inner, cfg.Banks());
    Digits(b.group, b.bank, cfg.banksPerGroup);
  }

  /** The refresh concerns the bank's queue. */
  predicate Concerns(cfg: Config, ref: Command, b: BankId) {
    if cfg.queueStructure.PerRank? || ref.kind.Refresh? then b.rank == ref.addr.rank else b == ref.Bank()
  }

  lemma QuotientIn(n: nat, hi: nat, radix: nat)
    requires n < hi * radix && radix > 0
    ensures n / radix < hi && n == (n / radix) * radix + n % radix
  {
    var q := n / radix;
    if q >= hi {
      MulMonotone(hi, q, radix);
    }
  }

  /** Three digits of a number. */
  lemma DigitsOf(k: nat, r: nat, g: nat, b: nat) returns (rank: nat, group: nat, bank: nat)
    requires b > 0 && g * b > 0 && k < r * (g * b)
    ensures rank < r && group < g && bank < b && k == rank * (g * b) + group * b + bank
  {
    QuotientIn(k, r, g * b);
    rank := k / (g * b);
    var inner := k % (g * b);
    QuotientIn(inner, g, b);
    group, bank := inner / b, inner % b;
  }

  /** No queue is without a bank. */
  lemma EveryQueueServes(cfg: Config, k: nat) returns (b: BankId)
    requires cfg.bankgroups > 0 && cfg.banksPerGroup > 0 && k < NumQueues(cfg)
    ensures cfg.HasBank(b) && QueueIndex(cfg, b) == k
  {
    if cfg.queueStructure.PerRank? {
      b := BankId(k, 0, 0);
    } else {
      MulMonotone(1, cfg.bankgroups, cfg.banksPerGroup);
      assert cfg.Banks() * cfg.ranks == cfg.ranks * cfg.Banks();
      var rank, group, bank := DigitsOf(k, cfg.ranks, cfg.bankgroups, cfg.banksPerGroup);
      b := BankId(rank, group, bank);
    }
  }

  /** In every run a queue is held back exactly while the refresh at the front is being prepared and
      concerns its bank or, with one queue a rank or a refresh of the whole rank, its rank. */
  lemma HeldBackIff(cfg: Config, states: seq<State>, inputs: seq<Input>, n: nat, b: BankId)
    requires Behaviour(cfg, states, inputs) && n < |states| && cfg.HasBank(b)
    ensures 0 <= QueueIndex(cfg, b) < |states[n].cq.queues|
    ensures HeldBack(states[n].cq, QueueIndex(cfg, b))
       <==> states[n].cq.inRef && states[n].ch.refreshQ != [] && Concerns(cfg, states[n].ch.refreshQ[0], b)
  {
    BehaviourKeepsInv(cfg, states, inputs, n);
    QueueIndexInRange(cfg, b);
    var s := states[n];
    if s.cq.inRef {
      var ref := s.ch.refreshQ[0];
      assert ref.kind.IsRefresh() && Addressed(cfg, ref);
      if ref.kind.RefreshBank? {
        QueueIsOwn(cfg, b, ref.Bank());
      }
    }
  }
}
