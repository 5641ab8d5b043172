/** Memory ordering: scheduling moves a transaction to its command queue without changing any
    line. */
module OrderingSchedule {
  import opened Basics
  import opened DramTypes
  import opened CommandQueues
  import opened Controller
  import opened Ordering
  import opened OrderingIssue

  lemma {:induction false} KeyLineEmpty(keys: seq<Key>, a: nat)
    requires forall i :: 0 <= i < |keys| ==> keys[i].addr != a
    ensures KeyLine(keys, a) == []
  {
    if keys != [] {
      KeyLineEmpty(keys[1..], a);
    }
  }

  /** Taking out the first transaction of an address takes off the head of its line. */
  lemma MoveLine(q: seq<Transaction>, i: nat, a: nat)
    requires i < |q|
    requires forall j :: 0 <= j < i ==> q[j].addr != q[i].addr
    ensures KeyLine(TransKeys(q), a) == (if q[i].addr == a then [q[i].isWrite] else []) + KeyLine(TransKeys(RemoveAt(q, i)), a)
  {
    var keys := TransKeys(q);
    assert TransKeys(RemoveAt(q, i)) == RemoveAt(keys, i);
    KeyLineAt(keys, i, a);
    if q[i].addr == a {
      KeyLineEmpty(keys[..i], a);
    }
  }

  /** The transaction that is scheduled is the first of its address in its queue: earlier ones
      would have met the same command queue. */
  lemma FirstOfItsAddress(cfg: Config, cq: Queues, q: seq<Transaction>)
    requires cfg.WellFormed() && |cq.queues| == NumQueues(cfg)
    requires FirstAccepted(cfg, cq, q, 0).Some?
    ensures var i := FirstAccepted(cfg, cq, q, 0).value;
            forall j :: 0 <= j < i ==> q[j].addr != q[i].addr
  {
  }

  /** The line of the command queues after adding the command of `t`. */
  lemma AddCommandLine(cfg: Config, cq: Queues, t: Transaction, a: nat)
    requires cfg.WellFormed() && |cq.queues| == NumQueues(cfg)
    requires Accepts(cfg, cq, t)
    ensures 0 <= QueueIndex(cfg, TransToCommand(cfg, t).Bank()) < NumQueues(cfg)
    ensures 0 <= Home(cfg, a) < NumQueues(cfg)
    ensures var cq' := Add(cfg, cq, TransToCommand(cfg, t));
            && |cq'.queues| == NumQueues(cfg)
            && KeyLine(CommandKeys(cq'.queues[Home(cfg, a)]), a)
               == KeyLine(CommandKeys(cq.queues[Home(cfg, a)]), a) + (if t.addr == a then [t.isWrite] else [])
  {
    HomeInRange(cfg, a);
    TransCommandPlaced(cfg, t);
    var cmd := TransToCommand(cfg, t);
    var k := QueueIndex(cfg, cmd.Bank());
    assert k == Home(cfg, t.addr);
    if Home(cfg, a) == k {
      assert CommandKeys(cq.queues[k] + [cmd]) == CommandKeys(cq.queues[k]) + [Key(t.addr, t.isWrite)];
      KeyLineLast(CommandKeys(cq.queues[k]), Key(t.addr, t.isWrite), a);
    }
  }

  /** The part of the line in the transaction queues loses exactly what the command queue gains. */
  lemma ScheduleWaiting(cfg: Config, s: State, i: nat, a: nat)
    requires LineInv(cfg, s) && FirstAccepted(cfg, s.cq, SourceQueue(cfg, s), 0) == Some(i)
    requires var t := SourceQueue(cfg, s)[i]; !(!cfg.unifiedQueue && t.isWrite && HasAddr(s.pendRd, t.addr))
    ensures var t := SourceQueue(cfg, s)[i];
            KeyLine(TransKeys(Waiting(cfg, s)), a)
            == (if t.addr == a then [t.isWrite] else []) + KeyLine(TransKeys(Waiting(cfg, ScheduleTransaction(cfg, s))), a)
  {
    var q := SourceQueue(cfg, s);
    var s' := ScheduleTransaction(cfg, s);
    FirstOfItsAddress(cfg, s.cq, q);
    MoveLine(q, i, a);
    if cfg.unifiedQueue {
      assert Waiting(cfg, s') == RemoveAt(q, i);
    } else {
      WaitingSplit(cfg, s, a);
      WaitingSplit(cfg, s', a);
      if Draining(cfg, s) > 0 {
        assert s'.writeBuf == RemoveAt(q, i) && s'.readQ == s.readQ;
        if q[i].addr == a {
          NoReadWaits(cfg, s, a);
        }
      } else {
        assert s'.readQ == RemoveAt(q, i) && s'.writeBuf == s.writeBuf;
      }
    }
  }

  lemma NoReadWaits(cfg: Config, s: State, a: nat)
    requires LineInv(cfg, s) && !cfg.unifiedQueue && !HasAddr(s.pendRd, a)
    ensures KeyLine(TransKeys(s.readQ), a) == []
  {
    assert LineOk(cfg, s, a);
    WaitingSplit(cfg, s, a);
    forall i | 0 <= i < |s.readQ|
      ensures TransKeys(s.readQ)[i].addr != a
    {
      if s.readQ[i].addr == a {
        assert TransKeys(s.readQ)[i] == Key(a, false);
        KeyLineMember(TransKeys(s.readQ), a, false);
      }
    }
    KeyLineEmpty(TransKeys(s.readQ), a);
  }

  lemma ScheduleKeepsLine(cfg: Config, s: State, a: nat)
    requires LineInv(cfg, s)
    ensures |ScheduleTransaction(cfg, s).cq.queues| == NumQueues(cfg)
    ensures Line(cfg, ScheduleTransaction(cfg, s), a) == Line(cfg, s, a)
  {
    var q := SourceQueue(cfg, s);
    var s' := ScheduleTransaction(cfg, s);
    var first := FirstAccepted(cfg, s.cq, q, 0);
    if first.None? {
      assert s' == s.(draining := s'.draining);
      assert Waiting(cfg, s') == Waiting(cfg, s);
    } else {
      var t := q[first.value];
      if !cfg.unifiedQueue && t.isWrite && HasAddr(s.pendRd, t.addr) {
        assert s' == s.(draining := 0);
        assert Waiting(cfg, s') == Waiting(cfg, s);
      } else {
        ScheduleWaiting(cfg, s, first.value, a);
        AddCommandLine(cfg, s.cq, t, a);
      }
    }
  }

  lemma ScheduleKeepsTyped(cfg: Config, s: State)
    requires cfg.WellFormed() && |s.cq.queues| == NumQueues(cfg) && Typed(cfg, s)
    ensures Typed(cfg, ScheduleTransaction(cfg, s))
  {
  }

  /** Scheduling keeps every line, so it keeps the ordering and the data. */
  lemma ScheduleKeeps(cfg: Config, s: State)
    requires Shaped(cfg, s) && LineInv(cfg, s) && DataInv(cfg, s)
    ensures LineInv(cfg, ScheduleTransaction(cfg, s)) && DataInv(cfg, ScheduleTransaction(cfg, s))
  {
    var s' := ScheduleTransaction(cfg, s);
    ScheduleIsShaped(cfg, s);
    ScheduleKeepsTyped(cfg, s);
    ScheduleKeepsPending(cfg, s);
    forall a: nat
      ensures LineOk(cfg, s', a) && Line(cfg, s', a) == Line(cfg, s, a)
    {
      assert LineOk(cfg, s, a);
      ScheduleKeepsLine(cfg, s, a);
    }
    FewerWaitingKeepsData(cfg, s, s');
  }

  lemma ScheduleKeepsPending(cfg: Config, s: State)
    requires cfg.WellFormed() && |s.cq.queues| == NumQueues(cfg)
    ensures var s' := ScheduleTransaction(cfg, s);
            s'.pendRd == s.pendRd && s'.pendWr == s.pendWr && s'.returnQ == s.returnQ && s'.shadow == s.shadow
            && s'.ch == s.ch && s'.clk == s.clk && s'.cq.clk == s.cq.clk && s'.rf == s.rf
  {
  }

  // ---------------------------------------------------------------- the drain counter

  /** The drain counter never exceeds the write buffer. */
  ghost predicate DrainInv(cfg: Config, s: State) {
    0 <= s.draining <= |s.writeBuf| && (cfg.unifiedQueue ==> s.draining == 0)
  }

  lemma ScheduleKeepsDrain(cfg: Config, s: State)
    requires cfg.WellFormed() && |s.cq.queues| == NumQueues(cfg)
    requires Typed(cfg, s) && DrainInv(cfg, s)
    ensures DrainInv(cfg, ScheduleTransaction(cfg, s))
  {
  }

  // ---------------------------------------------------------------- conservation

  function Serials(q: seq<Transaction>): multiset<nat> {
    if q == [] then multiset{} else multiset{q[0].serial} + Serials(q[1..])
  }

  function Below(n: nat): multiset<nat> {
    if n == 0 then multiset{} else Below(n - 1) + multiset{n - 1}
  }

  lemma {:induction false} BelowCounts(n: nat, k: nat)
    ensures Below(n)[k] == if k < n then 1 else 0
  {
    if n > 0 {
      BelowCounts(n - 1, k);
    }
  }

  /** Every accepted transaction is in exactly one place: handed back, about to be handed back,
      or a pending read. */
  ghost predicate SerialInv(s: State) {
    Serials(s.shadow.delivered) + Serials(s.returnQ) + Serials(s.pendRd) == Below(|s.shadow.log|)
  }

  lemma {:induction false} SerialsConcat(p: seq<Transaction>, q: seq<Transaction>)
    ensures Serials(p + q) == Serials(p) + Serials(q)
  {
    if p == [] {
      assert p + q == q;
    } else {
      assert (p + q)[1..] == p[1..] + q;
      SerialsConcat(p[1..], q);
    }
  }

  lemma SerialsOne(t: Transaction)
    ensures Serials([t]) == multiset{t.serial}
  {
  }

  lemma {:induction false} SerialsPartition(q: seq<Transaction>, a: nat)
    ensures Serials(q) == Serials(WithAddr(q, a)) + Serials(WithoutAddr(q, a))
  {
    if q != [] {
      SerialsPartition(q[1..], a);
      SerialsOne(q[0]);
      SerialsConcat([q[0]], WithAddr(q[1..], a));
      SerialsConcat([q[0]], WithoutAddr(q[1..], a));
    }
  }

  lemma {:induction false} SerialsComplete(q: seq<Transaction>, cycle: nat)
    ensures Serials(CompleteAt(q, cycle)) == Serials(q)
  {
    if q != [] {
      assert CompleteAt(q, cycle)[1..] == CompleteAt(q[1..], cycle);
      SerialsComplete(q[1..], cycle);
    }
  }

  lemma Regroup(d: multiset<nat>, r: multiset<nat>, p: multiset<nat>, x: multiset<nat>)
    ensures d + (r + x) + p == d + r + p + x
    ensures d + r + (p + x) == d + r + p + x
    ensures d + r + (x + p) == d + r + p + x
  {
  }

  lemma AddKeepsSerials(cfg: Config, s: State, req: Request)
    requires SerialInv(s)
    ensures SerialInv(AddTransaction(cfg, s, req))
  {
    var t := Transaction(req.addr, req.isWrite, s.clk, 0, |s.shadow.log|);
    var done := t.(complete := s.clk + 1);
    AddEffect(cfg, s, req);
    SerialsConcat(s.returnQ, [done]);
    SerialsOne(done);
    SerialsConcat(s.pendRd, [t]);
    SerialsOne(t);
    Regroup(Serials(s.shadow.delivered), Serials(s.returnQ), Serials(s.pendRd), multiset{t.serial});
  }

  /** An accepted transaction either completes at once or becomes a pending read. */
  lemma AddEffect(cfg: Config, s: State, req: Request)
    ensures var s' := AddTransaction(cfg, s, req);
            var t := Transaction(req.addr, req.isWrite, s.clk, 0, |s.shadow.log|);
            && s'.shadow.delivered == s.shadow.delivered
            && |s'.shadow.log| == |s.shadow.log| + 1
            && (|| (s'.pendRd == s.pendRd && s'.returnQ == s.returnQ + [t.(complete := s.clk + 1)])
                || (s'.pendRd == s.pendRd + [t] && s'.returnQ == s.returnQ))
  {
  }

  lemma AccountKeepsSerials(cfg: Config, s: State, cmd: Command)
    requires SerialInv(s)
    ensures SerialInv(Account(cfg, s, cmd))
  {
    AccountQueues(cfg, s, cmd);
    if cmd.kind.IsRead() {
      MoveKeepsSerials(s.returnQ, s.pendRd, cmd.hexAddr, Deadline(s.clk, cfg.ReadDelay()), Serials(s.shadow.delivered));
    }
  }

  lemma AccountQueues(cfg: Config, s: State, cmd: Command)
    ensures var s' := Account(cfg, s, cmd);
            && s'.shadow.delivered == s.shadow.delivered
            && s'.shadow.log == s.shadow.log
            && s'.returnQ == (
                               if cmd.kind.IsRead() then s.returnQ + CompleteAt(WithAddr(s.pendRd, cmd.hexAddr), Deadline(s.clk, cfg.ReadDelay()))
                               else s.returnQ)
            && s'.pendRd == (if cmd.kind.IsRead() then WithoutAddr(s.pendRd, cmd.hexAddr) else s.pendRd)
  {
  }

  /** Completing the pending reads of one address moves them to the return queue. */
  lemma MoveKeepsSerials(returnQ: seq<Transaction>, pendRd: seq<Transaction>, a: nat, cycle: nat, delivered: multiset<nat>)
    ensures delivered + Serials(returnQ + CompleteAt(WithAddr(pendRd, a), cycle)) + Serials(WithoutAddr(pendRd, a))
         == delivered + Serials(returnQ) + Serials(pendRd)
  {
    var waiting := WithAddr(pendRd, a);
    SerialsPartition(pendRd, a);
    SerialsComplete(waiting, cycle);
    SerialsConcat(returnQ, CompleteAt(waiting, cycle));
    Regroup(delivered, Serials(returnQ), Serials(WithoutAddr(pendRd, a)), Serials(waiting));
  }

  lemma ReturnKeepsSerials(s: State, clk: nat)
    requires SerialInv(s)
    ensures SerialInv(ReturnDone(s, clk))
  {
    var r := FirstDone(s.returnQ, clk, 0);
    if r.Some? {
      var i := r.value;
      var q := s.returnQ;
      assert q == q[..i] + ([q[i]] + q[i + 1..]);
      SerialsConcat(q[..i], [q[i]] + q[i + 1..]);
      SerialsConcat([q[i]], q[i + 1..]);
      SerialsConcat(q[..i], q[i + 1..]);
      SerialsConcat(s.shadow.delivered, [q[i]]);
      SerialsOne(q[i]);
    }
  }

  /** Handing back a finished transaction keeps ordering and data. */
  lemma ReturnKeeps(cfg: Config, s: State, clk: nat)
    requires LineInv(cfg, s) && DataInv(cfg, s)
    ensures LineInv(cfg, ReturnDone(s, clk)) && DataInv(cfg, ReturnDone(s, clk))
  {
    var s' := ReturnDone(s, clk);
    assert s'.cq == s.cq && s'.pendRd == s.pendRd && s'.pendWr == s.pendWr;
    forall a: nat
      ensures LineOk(cfg, s', a) && Line(cfg, s', a) == Line(cfg, s, a) && ValueOk(s', a)
    {
      assert LineOk(cfg, s, a);
      assert ValueOk(s, a);
      assert Waiting(cfg, s') == Waiting(cfg, s);
    }
    forall i | 0 <= i < |s'.pendRd|
      ensures PendingOk(cfg, s', s'.pendRd[i])
    {
      assert PendingOk(cfg, s, s.pendRd[i]);
    }
    HistoryIrrelevant(s.shadow, s'.shadow, s.returnQ);
    HistoryIrrelevant(s.shadow, s'.shadow, s.shadow.delivered);
  }
}
