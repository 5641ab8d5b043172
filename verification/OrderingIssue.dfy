/** Memory ordering: taking a command from its queue and issuing it. */
module OrderingIssue {
  import opened Basics
  import opened DramTypes
  import opened Channel
  import opened CommandQueues
  import opened Controller
  import opened Ordering

  // ---------------------------------------------------------------- taking

  /** What holds of a read or write between leaving its queue and being issued: the pending
      lookup will succeed, nothing of its kind waits behind it, a read still finds its value in
      DRAM and a write does not overtake a read. */
  ghost predicate IssueReady(cfg: Config, s: State, cmd: Command)
    requires cfg.WellFormed() && |s.cq.queues| == NumQueues(cfg)
  {
    var a := cmd.hexAddr;
    && (cmd.kind.IsRead() ==>
          && HasAddr(s.pendRd, a)
          && false !in Line(cfg, s, a)
          && forall i :: 0 <= i < |s.pendRd| && s.pendRd[i].addr == a ==> ReadSafe(s.shadow, s.pendRd[i]))
    && (cmd.kind.IsWrite() ==>
          && HasAddr(s.pendWr, a)
          && Line(cfg, s, a) == [])
  }

  lemma LineWithout(p: seq<bool>, w: bool, r: seq<bool>)
    requires IsLine(p + [w] + r)
    ensures IsLine(p + r) && w !in p + r
    ensures forall x :: x in p + r ==> x in p + [w] + r
    ensures p == [] || p == [false]
  {
    var l := p + [w] + r;
    assert l[|p|] == w;
    if |l| == 2 {
      if |p| == 0 {
        assert p + r == [l[1]];
      } else {
        assert p + r == [l[0]];
      }
    } else {
      assert p + r == [];
    }
  }

  /** Removing a command splits it out of the line of its own address and leaves the others. */
  lemma TakeLine(cfg: Config, s: State, qs: Queues, k: nat, i: nat, a: nat) returns (p: seq<bool>, r: seq<bool>)
    requires cfg.WellFormed() && ValidQueues(cfg, s.cq)
    requires k < NumQueues(cfg) && i < |s.cq.queues[k]|
    requires qs.queues == s.cq.queues[k := RemoveAt(s.cq.queues[k], i)]
    ensures var c := s.cq.queues[k][i];
            if c.hexAddr == a then
              && Line(cfg, s, a) == p + [c.kind.IsWrite()] + r
              && Line(cfg, s.(cq := qs), a) == p + r
              && p == KeyLine(CommandKeys(s.cq.queues[k])[..i], a)
            else
              Line(cfg, s.(cq := qs), a) == Line(cfg, s, a)
  {
    var q := s.cq.queues[k];
    HomeInRange(cfg, a);
    assert AllPlaced(cfg, q, k);
    assert Placed(cfg, q[i], k);
    assert Waiting(cfg, s.(cq := qs)) == Waiting(cfg, s);
    p, r := [], [];
    if Home(cfg, a) == k {
      RemoveLine(q, i, a);
      p := KeyLine(CommandKeys(q)[..i], a);
      r := KeyLine(CommandKeys(q)[i + 1..], a) + KeyLine(TransKeys(Waiting(cfg, s)), a);
    }
  }

  lemma RemoveLine(q: seq<Command>, i: nat, a: nat)
    requires i < |q|
    ensures var keys := CommandKeys(q);
            && KeyLine(keys, a) == KeyLine(keys[..i], a) + (if q[i].hexAddr == a then [q[i].kind.IsWrite()] else []) + KeyLine(keys[i + 1..], a)
            && KeyLine(CommandKeys(RemoveAt(q, i)), a) == KeyLine(keys[..i], a) + KeyLine(keys[i + 1..], a)
  {
    assert CommandKeys(RemoveAt(q, i)) == RemoveAt(CommandKeys(q), i);
    KeyLineAt(CommandKeys(q), i, a);
  }

  lemma TakeKeepsLine(cfg: Config, s: State, qs: Queues, k: nat, i: nat, a: nat)
    requires cfg.WellFormed() && ValidQueues(cfg, s.cq)
    requires k < NumQueues(cfg) && i < |s.cq.queues[k]|
    requires qs.queues == s.cq.queues[k := RemoveAt(s.cq.queues[k], i)]
    requires LineOk(cfg, s, a)
    ensures LineOk(cfg, s.(cq := qs), a)
    ensures forall x :: x in Line(cfg, s.(cq := qs), a) ==> x in Line(cfg, s, a)
    ensures var c := s.cq.queues[k][i];
            c.hexAddr == a ==> c.kind.IsWrite() in Line(cfg, s, a) && c.kind.IsWrite() !in Line(cfg, s.(cq := qs), a)
  {
    var p, r := TakeLine(cfg, s, qs, k, i, a);
    var c := s.cq.queues[k][i];
    if c.hexAddr == a {
      LineWithout(p, c.kind.IsWrite(), r);
    }
  }

  lemma ReadAheadIsDependency(cfg: Config, q: seq<Command>, k: nat, pos: nat)
    requires AllPlaced(cfg, q, k) && pos < |q|
    requires false in KeyLine(CommandKeys(q)[..pos], q[pos].hexAddr)
    ensures HasRWDependency(q, pos)
  {
    var a := q[pos].hexAddr;
    KeyLineMember(CommandKeys(q)[..pos], a, false);
    var m :| 0 <= m < pos && CommandKeys(q)[m] == Key(a, false);
    assert Placed(cfg, q[m], k) && Placed(cfg, q[pos], k);
    assert q[m].addr == q[pos].addr && q[m].kind.IsRead();
  }

  /** A write without a read dependency has no read of its address ahead of it. */
  lemma EligibleWriteAlone(cfg: Config, s: State, qs: Queues, k: nat, i: nat, pos: nat)
    requires cfg.WellFormed() && ValidQueues(cfg, s.cq)
    requires k < NumQueues(cfg) && i < |s.cq.queues[k]| && pos < |s.cq.queues[k]|
    requires s.cq.queues[k][i] == s.cq.queues[k][pos] && s.cq.queues[k][i].kind.IsWrite()
    requires qs.queues == s.cq.queues[k := RemoveAt(s.cq.queues[k], i)]
    requires !HasRWDependency(s.cq.queues[k], pos)
    requires LineOk(cfg, s, s.cq.queues[k][i].hexAddr)
    ensures Line(cfg, s.(cq := qs), s.cq.queues[k][i].hexAddr) == []
  {
    var q := s.cq.queues[k];
    var a := q[i].hexAddr;
    TakeKeepsLine(cfg, s, qs, k, i, a);
    var p, r := TakeLine(cfg, s, s.cq.(queues := s.cq.queues[k := RemoveAt(q, pos)]), k, pos, a);
    if false in p {
      ReadAheadIsDependency(cfg, q, k, pos);
    }
    LoneWrite(p, r, Line(cfg, s.(cq := qs), a));
  }

  /** A write with no read ahead is the whole line, and taking it leaves nothing. */
  lemma LoneWrite(p: seq<bool>, r: seq<bool>, rest: seq<bool>)
    requires IsLine(p + [true] + r) && false !in p
    requires true !in rest && forall x :: x in rest ==> x in p + [true] + r
    ensures rest == []
  {
    assert rest != [] ==> rest[0] in rest && rest[0] == false;
    LineWithout(p, true, r);
    assert p == [];
    assert IsLine([true] + r) && ([true] + r)[0];
    assert false !in p + [true] + r;
  }

  /** Taking a command keeps every invariant and makes a column command ready to issue. */
  lemma TakeKeeps(cfg: Config, s: State, t: Taken)
    requires LineInv(cfg, s) && DataInv(cfg, s)
    requires ValidChannel(cfg, s.ch) && TakenOk(cfg, s.ch, s.cq, t)
    ensures LineInv(cfg, s.(cq := t.qs)) && DataInv(cfg, s.(cq := t.qs))
    ensures t.pick.Some? ==> IssueReady(cfg, s.(cq := t.qs), t.pick.value.cmd)
  {
    var s' := s.(cq := t.qs);
    if t.pick.None? || !t.pick.value.cmd.kind.IsReadWrite() {
      TakeNothing(cfg, s, t.qs);
    } else {
      var p := t.pick.value;
      var q := s.cq.queues[p.queue];
      var i: nat :| i < |q| && q[i] == p.cmd && t.qs.queues == s.cq.queues[p.queue := RemoveAt(q, i)];
      forall a: nat
        ensures LineOk(cfg, s', a)
        ensures forall x :: x in Line(cfg, s', a) ==> x in Line(cfg, s, a)
      {
        assert LineOk(cfg, s, a);
        TakeKeepsLine(cfg, s, t.qs, p.queue, i, a);
      }
      FewerWaitingKeepsData(cfg, s, s');
      TakenIsReady(cfg, s, t, i);
    }
  }

  /** Nothing but the order of service changes when no column command leaves. */
  lemma TakeNothing(cfg: Config, s: State, qs: Queues)
    requires LineInv(cfg, s) && DataInv(cfg, s)
    requires ValidQueues(cfg, qs) && qs.queues == s.cq.queues
    ensures LineInv(cfg, s.(cq := qs)) && DataInv(cfg, s.(cq := qs))
  {
    var s' := s.(cq := qs);
    forall a: nat
      ensures LineOk(cfg, s', a) && Line(cfg, s', a) == Line(cfg, s, a)
    {
      assert LineOk(cfg, s, a);
      assert Waiting(cfg, s') == Waiting(cfg, s);
    }
    FewerWaitingKeepsData(cfg, s, s');
  }

  lemma FewerWaitingKeepsData(cfg: Config, s: State, s': State)
    requires LineInv(cfg, s) && DataInv(cfg, s)
    requires LineInv(cfg, s')
    requires s'.pendRd == s.pendRd && s'.pendWr == s.pendWr && s'.returnQ == s.returnQ && s'.shadow == s.shadow
    requires forall a: nat :: forall x :: x in Line(cfg, s', a) ==> x in Line(cfg, s, a)
    ensures DataInv(cfg, s')
  {
    forall a: nat
      ensures ValueOk(s', a)
    {
      assert ValueOk(s, a);
    }
    forall i | 0 <= i < |s'.pendRd|
      ensures PendingOk(cfg, s', s'.pendRd[i])
    {
      assert PendingOk(cfg, s, s.pendRd[i]);
      assert forall x :: x in Line(cfg, s', s.pendRd[i].addr) ==> x in Line(cfg, s, s.pendRd[i].addr);
    }
  }

  lemma TakenIsReady(cfg: Config, s: State, t: Taken, i: nat)
    requires LineInv(cfg, s) && DataInv(cfg, s)
    requires ValidChannel(cfg, s.ch) && TakenOk(cfg, s.ch, s.cq, t) && t.pick.Some? && t.pick.value.cmd.kind.IsReadWrite()
    requires i < |s.cq.queues[t.pick.value.queue]| && s.cq.queues[t.pick.value.queue][i] == t.pick.value.cmd
    requires t.qs.queues == s.cq.queues[t.pick.value.queue := RemoveAt(s.cq.queues[t.pick.value.queue], i)]
    ensures IssueReady(cfg, s.(cq := t.qs), t.pick.value.cmd)
  {
    var p := t.pick.value;
    var a := p.cmd.hexAddr;
    assert LineOk(cfg, s, a);
    TakeKeepsLine(cfg, s, t.qs, p.queue, i, a);
    if p.cmd.kind.IsWrite() {
      EligibleWriteAlone(cfg, s, t.qs, p.queue, i, p.pos);
    } else {
      forall j | 0 <= j < |s.pendRd| && s.pendRd[j].addr == a
        ensures ReadSafe(s.shadow, s.pendRd[j])
      {
        assert PendingOk(cfg, s, s.pendRd[j]);
      }
    }
  }

  // ---------------------------------------------------------------- issuing

  lemma {:induction false} WithoutAddrMembers(q: seq<Transaction>, a: nat)
    ensures forall t :: t in WithoutAddr(q, a) <==> t in q && t.addr != a
    ensures forall t :: t in WithAddr(q, a) <==> t in q && t.addr == a
  {
    if q != [] {
      WithoutAddrMembers(q[1..], a);
      assert q == [q[0]] + q[1..];
    }
  }

  lemma {:induction false} DropFirstWriteMembers(q: seq<Transaction>, a: nat)
    requires forall i, j :: 0 <= i < j < |q| ==> q[i].addr != q[j].addr
    ensures forall t :: t in DropFirstWrite(q, a) <==> t in q && t.addr != a
    ensures forall i, j :: 0 <= i < j < |DropFirstWrite(q, a)| ==> DropFirstWrite(q, a)[i].addr != DropFirstWrite(q, a)[j].addr
  {
    if q != [] {
      assert q == [q[0]] + q[1..];
      if q[0].addr == a {
        forall t | t in q[1..]
          ensures t.addr != a
        {
          var j :| 0 <= j < |q[1..]| && q[1..][j] == t;
          assert q[j + 1] == t;
        }
      } else {
        DropFirstWriteMembers(q[1..], a);
        var d := DropFirstWrite(q[1..], a);
        forall j | 0 <= j < |d|
          ensures d[j].addr != q[0].addr
        {
          assert d[j] in q[1..];
          var m :| 0 <= m < |q[1..]| && q[1..][m] == d[j];
          assert q[m + 1] == d[j];
        }
      }
    }
  }

  lemma HasAddrByMember(q: seq<Transaction>, r: seq<Transaction>, a: nat, b: nat)
    requires forall t :: t in r <==> t in q && t.addr != a
    ensures HasAddr(r, b) <==> b != a && HasAddr(q, b)
  {
  }

  /** Issuing keeps the lines: the commands that still wait are the same, and the issued address
      has none of its kind left. */
  lemma AccountKeepsLines(cfg: Config, s: State, cmd: Command)
    requires LineInv(cfg, s) && IssueReady(cfg, s, cmd)
    ensures LineInv(cfg, Account(cfg, s, cmd))
    ensures forall a: nat :: Line(cfg, Account(cfg, s, cmd), a) == Line(cfg, s, a)
  {
    var s' := Account(cfg, s, cmd);
    WithoutAddrMembers(s.pendRd, cmd.hexAddr);
    DropFirstWriteMembers(s.pendWr, cmd.hexAddr);
    forall a: nat
      ensures LineOk(cfg, s', a) && Line(cfg, s', a) == Line(cfg, s, a)
    {
      assert LineOk(cfg, s, a);
      AccountKeepsLine(cfg, s, cmd, a);
      HasAddrByMember(s.pendRd, WithoutAddr(s.pendRd, cmd.hexAddr), cmd.hexAddr, a);
      HasAddrByMember(s.pendWr, DropFirstWrite(s.pendWr, cmd.hexAddr), cmd.hexAddr, a);
    }
    AccountKeepsTyped(cfg, s, cmd);
  }

  lemma AccountKeepsLine(cfg: Config, s: State, cmd: Command, a: nat)
    requires cfg.WellFormed() && |s.cq.queues| == NumQueues(cfg)
    ensures |Account(cfg, s, cmd).cq.queues| == NumQueues(cfg)
    ensures Line(cfg, Account(cfg, s, cmd), a) == Line(cfg, s, a)
  {
  }

  lemma AccountKeepsTyped(cfg: Config, s: State, cmd: Command)
    requires Typed(cfg, s)
    ensures Typed(cfg, Account(cfg, s, cmd))
  {
    var s' := Account(cfg, s, cmd);
    WithoutAddrMembers(s.pendRd, cmd.hexAddr);
    DropFirstWriteMembers(s.pendWr, cmd.hexAddr);
    forall i | 0 <= i < |s'.pendRd|
      ensures !s'.pendRd[i].isWrite
    {
      assert s'.pendRd[i] in s'.pendRd;
      assert s'.pendRd[i] in s.pendRd;
    }
    forall i | 0 <= i < |s'.pendWr|
      ensures s'.pendWr[i].isWrite
    {
      assert s'.pendWr[i] in s'.pendWr;
      assert s'.pendWr[i] in s.pendWr;
    }
  }

  lemma {:induction false} ServeAllLookup(served: map<nat, int>, q: seq<Transaction>, value: int, n: nat)
    ensures var r := ServeAll(served, q, value);
            if exists i :: 0 <= i < |q| && q[i].serial == n then n in r && r[n] == value
            else (n in r <==> n in served) && (n in r ==> r[n] == served[n])
    decreases |q|
  {
    if q != [] {
      ServeAllLookup(served[q[0].serial := value], q[1..], value, n);
      if exists i :: 0 <= i < |q| && q[i].serial == n {
        var i :| 0 <= i < |q| && q[i].serial == n;
        if i > 0 {
          assert q[1..][i - 1].serial == n;
        }
      }
    }
  }

  /** Reads answered together all obtain the value they have to. */
  lemma ServeAllAnswers(sh: Shadow, served: map<nat, int>, waiting: seq<Transaction>, value: int, q: seq<Transaction>)
    requires served == ServeAll(sh.served, waiting, value)
    requires forall t :: t in waiting ==> Matches(sh, t) && value == Latest(sh.log, t.serial, t.addr)
    requires AllAnswered(sh, q)
    ensures AllAnswered(sh.(served := served), q)
  {
    forall i | 0 <= i < |q|
      ensures Answered(sh.(served := served), q[i])
    {
      assert Answered(sh, q[i]);
      ServeAllLookup(sh.served, waiting, value, q[i].serial);
      if exists j :: 0 <= j < |waiting| && waiting[j].serial == q[i].serial {
        var j :| 0 <= j < |waiting| && waiting[j].serial == q[i].serial;
        assert waiting[j] in waiting;
      }
    }
  }

  /** The reads that a read command completes are answered correctly. */
  lemma ReadKeepsAnswers(cfg: Config, s: State, cmd: Command)
    requires AllAnswered(s.shadow, s.returnQ) && AllAnswered(s.shadow, s.shadow.delivered)
    requires cmd.kind.IsRead() && AllOf(s.pendRd, false)
    requires forall i :: 0 <= i < |s.pendRd| && s.pendRd[i].addr == cmd.hexAddr ==> ReadSafe(s.shadow, s.pendRd[i])
    ensures AllAnswered(Account(cfg, s, cmd).shadow, Account(cfg, s, cmd).returnQ)
    ensures AllAnswered(Account(cfg, s, cmd).shadow, s.shadow.delivered)
  {
    var s' := Account(cfg, s, cmd);
    var a := cmd.hexAddr;
    var value := Lookup(s.shadow.mem, a);
    var waiting := WithAddr(s.pendRd, a);
    WithoutAddrMembers(s.pendRd, a);
    forall t | t in waiting
      ensures ReadSafe(s.shadow, t) && t.addr == a && !t.isWrite
    {
      assert t in s.pendRd;
    }
    var sh := s.shadow.(served := s'.shadow.served);
    ServeAllAnswers(s.shadow, sh.served, waiting, value, s.returnQ);
    ServeAllAnswers(s.shadow, sh.served, waiting, value, s.shadow.delivered);
    ServedAreAnswered(s.shadow, waiting, value, Deadline(s.clk, cfg.ReadDelay()));
    HistoryIrrelevant(sh, s'.shadow, s.returnQ);
    HistoryIrrelevant(sh, s'.shadow, s.shadow.delivered);
    HistoryIrrelevant(sh, s'.shadow, CompleteAt(waiting, Deadline(s.clk, cfg.ReadDelay())));
  }

  lemma ServedAreAnswered(sh: Shadow, waiting: seq<Transaction>, value: int, cycle: nat)
    requires forall t :: t in waiting ==> Matches(sh, t) && value == Latest(sh.log, t.serial, t.addr)
    ensures AllAnswered(sh.(served := ServeAll(sh.served, waiting, value)), CompleteAt(waiting, cycle))
  {
    var done := CompleteAt(waiting, cycle);
    forall i | 0 <= i < |done|
      ensures Answered(sh.(served := ServeAll(sh.served, waiting, value)), done[i])
    {
      assert waiting[i] in waiting;
      assert done[i].serial == waiting[i].serial;
      ServeAllLookup(sh.served, waiting, value, waiting[i].serial);
    }
  }

  lemma HistoryIrrelevant(sh: Shadow, sh': Shadow, q: seq<Transaction>)
    requires sh'.log == sh.log && sh'.served == sh.served
    requires AllAnswered(sh, q)
    ensures AllAnswered(sh', q)
  {
  }

  /** A read or write issued when it is ready keeps the data invariant; so does any other command. */
  lemma AccountKeepsData(cfg: Config, s: State, cmd: Command)
    requires LineInv(cfg, s) && DataInv(cfg, s) && IssueReady(cfg, s, cmd)
    ensures LineInv(cfg, Account(cfg, s, cmd)) && DataInv(cfg, Account(cfg, s, cmd))
  {
    var s' := Account(cfg, s, cmd);
    AccountKeepsLines(cfg, s, cmd);
    forall b: nat
      ensures ValueOk(s', b)
    {
      assert ValueOk(s, b);
      AccountKeepsValue(cfg, s, cmd, b);
    }
    forall i | 0 <= i < |s'.pendRd|
      ensures PendingOk(cfg, s', s'.pendRd[i])
    {
      AccountKeepsPending(cfg, s, cmd, i);
    }
    if cmd.kind.IsRead() {
      ReadKeepsAnswers(cfg, s, cmd);
    } else {
      HistoryIrrelevant(s.shadow, s'.shadow, s.returnQ);
      HistoryIrrelevant(s.shadow, s'.shadow, s.shadow.delivered);
    }
  }

  lemma AccountKeepsValue(cfg: Config, s: State, cmd: Command, b: nat)
    requires ValueOk(s, b) && (cmd.kind.IsWrite() ==> HasAddr(s.pendWr, cmd.hexAddr))
    requires forall i, j :: 0 <= i < j < |s.pendWr| ==> s.pendWr[i].addr != s.pendWr[j].addr
    ensures ValueOk(Account(cfg, s, cmd), b)
  {
    DropFirstWriteMembers(s.pendWr, cmd.hexAddr);
    HasAddrByMember(s.pendWr, DropFirstWrite(s.pendWr, cmd.hexAddr), cmd.hexAddr, b);
  }

  lemma AccountKeepsPending(cfg: Config, s: State, cmd: Command, i: nat)
    requires LineInv(cfg, s) && DataInv(cfg, s) && IssueReady(cfg, s, cmd)
    requires i < |Account(cfg, s, cmd).pendRd|
    ensures |Account(cfg, s, cmd).cq.queues| == NumQueues(cfg)
    ensures PendingOk(cfg, Account(cfg, s, cmd), Account(cfg, s, cmd).pendRd[i])
  {
    var s' := Account(cfg, s, cmd);
    var r := s'.pendRd[i];
    WithoutAddrMembers(s.pendRd, cmd.hexAddr);
    assert r in s'.pendRd;
    assert r in s.pendRd;
    assert PendingOk(cfg, s, r);
    AccountKeepsLine(cfg, s, cmd, r.addr);
    assert s'.shadow.log == s.shadow.log;
    assert s'.shadow.mem == s.shadow.mem || s'.shadow.mem == s.shadow.mem[cmd.hexAddr := Lookup(s.shadow.buf, cmd.hexAddr)];
  }
}
