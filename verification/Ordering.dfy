/** Memory ordering and conservation of transactions: what every operation of the controller
    keeps. For an address, the `Line` is the sequence of its reads (false) and writes (true)
    that are still waiting in the command queue and, behind it, in the transaction queues. */
module Ordering {
  import opened Basics
  import opened DramTypes
  import opened CommandQueues
  import opened Controller

  // ---------------------------------------------------------------- lines

  datatype Key = Key(addr: nat, isWrite: bool)

  function CommandKeys(q: seq<Command>): (r: seq<Key>)
    ensures |r| == |q|
    ensures forall i :: 0 <= i < |q| ==> r[i] == Key(q[i].hexAddr, q[i].kind.IsWrite())
  {
    seq(|q|, i requires 0 <= i < |q| => Key(q[i].hexAddr, q[i].kind.IsWrite()))
  }

  function TransKeys(q: seq<Transaction>): (r: seq<Key>)
    ensures |r| == |q|
    ensures forall i :: 0 <= i < |q| ==> r[i] == Key(q[i].addr, q[i].isWrite)
  {
    seq(|q|, i requires 0 <= i < |q| => Key(q[i].addr, q[i].isWrite))
  }

  function KeyLine(keys: seq<Key>, a: nat): seq<bool> {
    if keys == [] then []
    else (if keys[0].addr == a then [keys[0].isWrite] else []) + KeyLine(keys[1..], a)
  }

  /** The command queue that serves address `a`. */
  function Home(cfg: Config, a: nat): int {
    QueueIndex(cfg, Command(Read, cfg.decode(a), a).Bank())
  }

  function Waiting(cfg: Config, s: State): seq<Transaction> {
    if cfg.unifiedQueue then s.unifiedQ else s.readQ + s.writeBuf
  }

  lemma HomeInRange(cfg: Config, a: nat)
    requires cfg.WellFormed()
    ensures 0 <= Home(cfg, a) < NumQueues(cfg)
  {
    assert cfg.HasBank(Command(Read, cfg.decode(a), a).Bank());
    QueueIndexInRange(cfg, Command(Read, cfg.decode(a), a).Bank());
  }

  function Line(cfg: Config, s: State, a: nat): seq<bool>
    requires cfg.WellFormed() && |s.cq.queues| == NumQueues(cfg)
  {
    HomeInRange(cfg, a);
    KeyLine(CommandKeys(s.cq.queues[Home(cfg, a)]), a) + KeyLine(TransKeys(Waiting(cfg, s)), a)
  }

  lemma {:induction false} KeyLineConcat(p: seq<Key>, q: seq<Key>, a: nat)
    ensures KeyLine(p + q, a) == KeyLine(p, a) + KeyLine(q, a)
  {
    if p == [] {
      assert p + q == q;
    } else {
      KeyLineConcat(p[1..], q, a);
      KeyLineHead(p, q, a);
    }
  }

  /** The head of a list gives the head of its line. */
  lemma KeyLineHead(p: seq<Key>, q: seq<Key>, a: nat)
    requires p != []
    ensures KeyLine(p + q, a) == (if p[0].addr == a then [p[0].isWrite] else []) + KeyLine(p[1..] + q, a)
  {
    assert (p + q)[0] == p[0] && (p + q)[1..] == p[1..] + q;
  }

  lemma {:induction false} KeyLineMember(keys: seq<Key>, a: nat, w: bool)
    ensures w in KeyLine(keys, a) <==> Key(a, w) in keys
  {
    if keys != [] {
      assert keys == [keys[0]] + keys[1..];
      KeyLineMember(keys[1..], a, w);
    }
  }

  /** A line around position `i`. */
  lemma KeyLineAt(keys: seq<Key>, i: nat, a: nat)
    requires i < |keys|
    ensures KeyLine(keys, a) == KeyLine(keys[..i], a) + (if keys[i].addr == a then [keys[i].isWrite] else []) + KeyLine(keys[i + 1..], a)
    ensures KeyLine(RemoveAt(keys, i), a) == KeyLine(keys[..i], a) + KeyLine(keys[i + 1..], a)
  {
    assert keys == keys[..i] + keys[i..];
    assert keys[i..][1..] == keys[i + 1..];
    KeyLineConcat(keys[..i], keys[i..], a);
    KeyLineConcat(keys[..i], keys[i + 1..], a);
  }

  lemma KeyLineLast(keys: seq<Key>, k: Key, a: nat)
    ensures KeyLine(keys + [k], a) == KeyLine(keys, a) + (if k.addr == a then [k.isWrite] else [])
  {
    KeyLineConcat(keys, [k], a);
    assert [k][1..] == [];
  }

  // ---------------------------------------------------------------- the invariant

  /** At most one read and one write of an address wait, the read ahead of the write. */
  predicate IsLine(l: seq<bool>) {
    l == [] || l == [false] || l == [true] || l == [false, true]
  }

  ghost predicate LineOk(cfg: Config, s: State, a: nat)
    requires cfg.WellFormed() && |s.cq.queues| == NumQueues(cfg)
  {
    && IsLine(Line(cfg, s, a))
    && (false in Line(cfg, s, a) ==> HasAddr(s.pendRd, a))
    && (true in Line(cfg, s, a) ==> HasAddr(s.pendWr, a))
  }

  predicate AllOf(q: seq<Transaction>, isWrite: bool) {
    forall i :: 0 <= i < |q| ==> q[i].isWrite == isWrite
  }

  ghost predicate Typed(cfg: Config, s: State) {
    && AllOf(s.pendRd, false)
    && AllOf(s.pendWr, true)
    && (forall i, j :: 0 <= i < j < |s.pendWr| ==> s.pendWr[i].addr != s.pendWr[j].addr)
    && AllOf(s.readQ, false)
    && AllOf(s.writeBuf, true)
    && (if cfg.unifiedQueue then s.readQ == [] && s.writeBuf == [] else s.unifiedQ == [])
  }

  ghost predicate LineInv(cfg: Config, s: State) {
    && cfg.WellFormed()
    && ValidQueues(cfg, s.cq)
    && Typed(cfg, s)
    && forall a: nat :: LineOk(cfg, s, a)
  }

  /** The value of the last write to `a` among the first `n` accepted requests. */
  function Latest(log: seq<Request>, n: nat, a: nat): int
    requires n <= |log|
  {
    if n == 0 then 0
    else if log[n - 1].isWrite && log[n - 1].addr == a then log[n - 1].value
    else Latest(log, n - 1, a)
  }

  lemma {:induction false} LatestPrefix(log: seq<Request>, req: Request, n: nat, a: nat)
    requires n <= |log|
    ensures Latest(log + [req], n, a) == Latest(log, n, a)
  {
    if n > 0 {
      LatestPrefix(log, req, n - 1, a);
    }
  }

  /** The transaction is the accepted request with its serial number. */
  predicate Matches(sh: Shadow, t: Transaction) {
    t.serial < |sh.log| && sh.log[t.serial].addr == t.addr && sh.log[t.serial].isWrite == t.isWrite
  }

  /** A finished transaction: a read obtained the latest write accepted before it. */
  predicate Answered(sh: Shadow, t: Transaction) {
    && Matches(sh, t)
    && (!t.isWrite ==> t.serial in sh.served && sh.served[t.serial] == Latest(sh.log, t.serial, t.addr))
  }

  predicate AllAnswered(sh: Shadow, q: seq<Transaction>) {
    forall i :: 0 <= i < |q| ==> Answered(sh, q[i])
  }

  /** DRAM still holds what the pending read `t` has to return. */
  predicate ReadSafe(sh: Shadow, t: Transaction) {
    Matches(sh, t) && Lookup(sh.mem, t.addr) == Latest(sh.log, t.serial, t.addr)
  }

  /** While its read still waits, DRAM keeps the value a pending read has to return. */
  ghost predicate PendingOk(cfg: Config, s: State, r: Transaction)
    requires cfg.WellFormed() && |s.cq.queues| == NumQueues(cfg)
  {
    Matches(s.shadow, r) && (false in Line(cfg, s, r.addr) ==> ReadSafe(s.shadow, r))
  }

  /** The newest value of an address is in the write buffer while a write of it is pending, and
      in DRAM otherwise. */
  ghost predicate ValueOk(s: State, a: nat) {
    Latest(s.shadow.log, |s.shadow.log|, a) == Lookup(if HasAddr(s.pendWr, a) then s.shadow.buf else s.shadow.mem, a)
  }

  ghost predicate DataInv(cfg: Config, s: State)
    requires LineInv(cfg, s)
  {
    && (forall a: nat :: ValueOk(s, a))
    && (forall i :: 0 <= i < |s.pendRd| ==> PendingOk(cfg, s, s.pendRd[i]))
    && AllAnswered(s.shadow, s.returnQ)
    && AllAnswered(s.shadow, s.shadow.delivered)
  }

  // ---------------------------------------------------------------- accepting

  lemma AddKeepsTyped(cfg: Config, s: State, req: Request)
    requires Typed(cfg, s)
    ensures Typed(cfg, AddTransaction(cfg, s, req))
  {
  }

  lemma HasAddrLast(q: seq<Transaction>, t: Transaction, a: nat)
    ensures HasAddr(q + [t], a) <==> HasAddr(q, a) || t.addr == a
  {
    if HasAddr(q, a) {
      var i :| 0 <= i < |q| && q[i].addr == a;
      assert (q + [t])[i].addr == a;
    }
    if t.addr == a {
      assert (q + [t])[|q|].addr == a;
    }
  }

  /** Accepting a request puts it in a transaction queue, unless it merges with a pending write,
      is forwarded from one, or joins a pending read. */
  predicate Enqueues(s: State, req: Request) {
    !HasAddr(s.pendWr, req.addr) && (req.isWrite || !HasAddr(s.pendRd, req.addr))
  }

  lemma NothingWaits(cfg: Config, s: State, a: nat)
    requires cfg.WellFormed() && |s.cq.queues| == NumQueues(cfg)
    requires LineOk(cfg, s, a) && !HasAddr(s.pendRd, a) && !HasAddr(s.pendWr, a)
    ensures KeyLine(TransKeys(Waiting(cfg, s)), a) == []
  {
    assert Line(cfg, s, a) == [];
  }

  lemma NoBufferedWrite(cfg: Config, s: State, a: nat)
    requires cfg.WellFormed() && |s.cq.queues| == NumQueues(cfg) && !cfg.unifiedQueue
    requires LineOk(cfg, s, a) && !HasAddr(s.pendRd, a) && !HasAddr(s.pendWr, a)
    ensures KeyLine(TransKeys(s.writeBuf), a) == []
  {
    NothingWaits(cfg, s, a);
    WaitingSplit(cfg, s, a);
  }

  /** A line grows with what waits in the transaction queues. */
  lemma LineGrows(cfg: Config, s: State, s': State, a: nat, added: seq<bool>)
    requires cfg.WellFormed() && |s.cq.queues| == NumQueues(cfg) && s'.cq == s.cq
    requires KeyLine(TransKeys(Waiting(cfg, s')), a) == KeyLine(TransKeys(Waiting(cfg, s)), a) + added
    ensures Line(cfg, s', a) == Line(cfg, s, a) + added
  {
  }

  /** How accepting a request changes the line of each address. */
  lemma AddLine(cfg: Config, s: State, req: Request, a: nat)
    requires cfg.WellFormed() && |s.cq.queues| == NumQueues(cfg)
    requires LineOk(cfg, s, a)
    ensures |AddTransaction(cfg, s, req).cq.queues| == NumQueues(cfg)
    ensures Line(cfg, AddTransaction(cfg, s, req), a)
         == if a == req.addr && Enqueues(s, req) then Line(cfg, s, a) + [req.isWrite] else Line(cfg, s, a)
  {
    var s' := AddTransaction(cfg, s, req);
    assert s'.cq == s.cq;
    var added := if a == req.addr && Enqueues(s, req) then [req.isWrite] else [];
    if Enqueues(s, req) {
      if !cfg.unifiedQueue && !req.isWrite && a == req.addr {
        NoBufferedWrite(cfg, s, a);
      }
      AddWaiting(cfg, s, req, a);
    } else {
      AddNotWaiting(cfg, s, req);
    }
    LineGrows(cfg, s, s', a, added);
  }

  lemma AddNotWaiting(cfg: Config, s: State, req: Request)
    requires !Enqueues(s, req)
    ensures Waiting(cfg, AddTransaction(cfg, s, req)) == Waiting(cfg, s)
  {
  }

  lemma AddWaiting(cfg: Config, s: State, req: Request, a: nat)
    requires Enqueues(s, req)
    requires !cfg.unifiedQueue && !req.isWrite && a == req.addr ==> KeyLine(TransKeys(s.writeBuf), a) == []
    ensures KeyLine(TransKeys(Waiting(cfg, AddTransaction(cfg, s, req))), a)
         == KeyLine(TransKeys(Waiting(cfg, s)), a) + (if a == req.addr then [req.isWrite] else [])
  {
    var s' := AddTransaction(cfg, s, req);
    var t := Transaction(req.addr, req.isWrite, s.clk, 0, |s.shadow.log|);
    if cfg.unifiedQueue {
      assert Waiting(cfg, s') == s.unifiedQ + [t];
      EnqueueLine(s.unifiedQ, t, a);
    } else {
      WaitingSplit(cfg, s, a);
      WaitingSplit(cfg, s', a);
      if req.isWrite {
        assert s'.writeBuf == s.writeBuf + [t] && s'.readQ == s.readQ;
        EnqueueLine(s.writeBuf, t, a);
      } else {
        assert s'.readQ == s.readQ + [t] && s'.writeBuf == s.writeBuf;
        EnqueueLine(s.readQ, t, a);
      }
    }
  }

  lemma EnqueueLine(q: seq<Transaction>, t: Transaction, a: nat)
    ensures KeyLine(TransKeys(q + [t]), a) == KeyLine(TransKeys(q), a) + (if t.addr == a then [t.isWrite] else [])
  {
    assert TransKeys(q + [t]) == TransKeys(q) + [Key(t.addr, t.isWrite)];
    KeyLineLast(TransKeys(q), Key(t.addr, t.isWrite), a);
  }

  lemma WaitingSplit(cfg: Config, s: State, a: nat)
    requires !cfg.unifiedQueue
    ensures KeyLine(TransKeys(Waiting(cfg, s)), a) == KeyLine(TransKeys(s.readQ), a) + KeyLine(TransKeys(s.writeBuf), a)
  {
    assert TransKeys(s.readQ + s.writeBuf) == TransKeys(s.readQ) + TransKeys(s.writeBuf);
    KeyLineConcat(TransKeys(s.readQ), TransKeys(s.writeBuf), a);
  }

  /** What accepting makes pending. */
  lemma AddHas(cfg: Config, s: State, req: Request, a: nat)
    ensures HasAddr(AddTransaction(cfg, s, req).pendRd, a)
       <==> HasAddr(s.pendRd, a) || (a == req.addr && !req.isWrite && !HasAddr(s.pendWr, a))
    ensures HasAddr(AddTransaction(cfg, s, req).pendWr, a) <==> HasAddr(s.pendWr, a) || (a == req.addr && req.isWrite)
  {
    var t := Transaction(req.addr, req.isWrite, s.clk, 0, |s.shadow.log|);
    HasAddrLast(s.pendRd, t, a);
    HasAddrLast(s.pendWr, t, a);
  }

  lemma AddKeepsLine(cfg: Config, s: State, req: Request, a: nat)
    requires cfg.WellFormed() && |s.cq.queues| == NumQueues(cfg) && LineOk(cfg, s, a)
    ensures |AddTransaction(cfg, s, req).cq.queues| == NumQueues(cfg) && LineOk(cfg, AddTransaction(cfg, s, req), a)
  {
    AddLine(cfg, s, req, a);
    AddHas(cfg, s, req, a);
  }

  lemma AddKeepsLines(cfg: Config, s: State, req: Request)
    requires LineInv(cfg, s)
    ensures LineInv(cfg, AddTransaction(cfg, s, req))
  {
    AddKeepsTyped(cfg, s, req);
    forall a: nat
      ensures LineOk(cfg, AddTransaction(cfg, s, req), a)
    {
      assert LineOk(cfg, s, a);
      AddKeepsLine(cfg, s, req, a);
    }
  }

  lemma AddKeepsData(cfg: Config, s: State, req: Request)
    requires LineInv(cfg, s) && DataInv(cfg, s)
    ensures LineInv(cfg, AddTransaction(cfg, s, req)) && DataInv(cfg, AddTransaction(cfg, s, req))
  {
    AddKeepsLines(cfg, s, req);
    var s' := AddTransaction(cfg, s, req);
    forall a: nat
      ensures ValueOk(s', a)
    {
      assert ValueOk(s, a);
      AddKeepsValues(cfg, s, req, a);
    }
    AddKeepsAnswered(cfg, s, req, s.returnQ);
    AddKeepsAnswered(cfg, s, req, s.shadow.delivered);
    AddAnswersNew(cfg, s, req);
    forall i | 0 <= i < |s'.pendRd|
      ensures PendingOk(cfg, s', s'.pendRd[i])
    {
      AddKeepsPending(cfg, s, req, i);
    }
  }

  lemma AddKeepsValues(cfg: Config, s: State, req: Request, a: nat)
    requires ValueOk(s, a)
    ensures ValueOk(AddTransaction(cfg, s, req), a)
  {
    var log := s.shadow.log;
    LatestPrefix(log, req, |log|, a);
    HasAddrLast(s.pendWr, Transaction(req.addr, req.isWrite, s.clk, 0, |log|), a);
  }

  /** The transaction that acceptance itself completes is answered correctly. */
  lemma AddAnswersNew(cfg: Config, s: State, req: Request)
    requires LineInv(cfg, s) && DataInv(cfg, s)
    ensures AllAnswered(AddTransaction(cfg, s, req).shadow, AddTransaction(cfg, s, req).returnQ)
  {
    var s' := AddTransaction(cfg, s, req);
    var log := s.shadow.log;
    assert ValueOk(s, req.addr);
    AddKeepsAnswered(cfg, s, req, s.returnQ);
    LatestPrefix(log, req, |log|, req.addr);
    if |s'.returnQ| > |s.returnQ| {
      assert Answered(s'.shadow, s'.returnQ[|s.returnQ|]);
    }
  }

  lemma AddKeepsPending(cfg: Config, s: State, req: Request, i: nat)
    requires LineInv(cfg, s) && DataInv(cfg, s)
    requires i < |AddTransaction(cfg, s, req).pendRd|
    ensures |AddTransaction(cfg, s, req).cq.queues| == NumQueues(cfg)
    ensures PendingOk(cfg, AddTransaction(cfg, s, req), AddTransaction(cfg, s, req).pendRd[i])
  {
    var s' := AddTransaction(cfg, s, req);
    if i < |s.pendRd| {
      assert s'.pendRd[i] == s.pendRd[i];
      assert LineOk(cfg, s, s.pendRd[i].addr);
      AddKeepsOldRead(cfg, s, req, s.pendRd[i]);
    } else {
      assert s'.pendRd[i] == Transaction(req.addr, req.isWrite, s.clk, 0, |s.shadow.log|);
      LatestPrefix(s.shadow.log, req, |s.shadow.log|, req.addr);
      assert ValueOk(s, req.addr);
    }
  }

  lemma AddKeepsOldRead(cfg: Config, s: State, req: Request, r: Transaction)
    requires cfg.WellFormed() && |s.cq.queues| == NumQueues(cfg)
    requires LineOk(cfg, s, r.addr) && HasAddr(s.pendRd, r.addr) && PendingOk(cfg, s, r)
    ensures |AddTransaction(cfg, s, req).cq.queues| == NumQueues(cfg)
    ensures PendingOk(cfg, AddTransaction(cfg, s, req), r)
  {
    var s' := AddTransaction(cfg, s, req);
    assert s'.shadow.mem == s.shadow.mem && s'.shadow.log == s.shadow.log + [req];
    LatestPrefix(s.shadow.log, req, r.serial, r.addr);
    AddLine(cfg, s, req, r.addr);
    assert false in Line(cfg, s', r.addr) ==> false in Line(cfg, s, r.addr);
  }

  lemma AddKeepsAnswered(cfg: Config, s: State, req: Request, q: seq<Transaction>)
    requires AllAnswered(s.shadow, q)
    ensures AllAnswered(AddTransaction(cfg, s, req).shadow, q)
  {
    forall i | 0 <= i < |q|
      ensures Answered(AddTransaction(cfg, s, req).shadow, q[i])
    {
      assert Answered(s.shadow, q[i]);
      LatestPrefix(s.shadow.log, req, q[i].serial, q[i].addr);
    }
  }
}
