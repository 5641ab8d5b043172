/** The HMC crossbar (hmc.cc): requests travel from link to quad to vault, responses back. The
    vault controllers appear as the addresses they have accepted and not yet reported. */
module Hmc {
  import opened Basics
  import opened Arithmetic

  /** A request or its response. */
  datatype Packet = Packet(addr: nat, isWrite: bool, link: nat, quad: nat, flits: int, exit: int)

  const QUADS: nat := 4

  datatype Xbar = Xbar(
    depth: nat,
    logicClk: nat,
    nextLink: nat,
    linkReq: seq<seq<Packet>>,
    quadReq: seq<seq<Packet>>,
    quadResp: seq<seq<Packet>>,
    linkResp: seq<seq<Packet>>,
    linkBusy: seq<int>,
    quadBusy: seq<int>,
    linkAge: seq<int>,
    quadAge: seq<int>,
    lookup: seq<Packet>,
    vaults: multiset<nat>,
    inserted: seq<Packet>,
    callbacks: seq<Packet>)

  function InitialXbar(links: nat, depth: nat): Xbar {
    Xbar(
      depth, 0, 0,
      seq(links, _ => []), seq(QUADS, _ => []), seq(QUADS, _ => []), seq(links, _ => []),
      seq(links, _ => 0), seq(QUADS, _ => 0), seq(links, _ => 0), seq(QUADS, _ => 0),
      [], multiset{}, [], [])
  }

  predicate InRange(links: nat, q: seq<Packet>) {
    forall i :: 0 <= i < |q| ==> q[i].link < links && q[i].quad < QUADS
  }

  predicate AllInRange(links: nat, qs: seq<seq<Packet>>) {
    forall k :: 0 <= k < |qs| ==> InRange(links, qs[k])
  }

  /** An age counter is positive exactly when its queue is not empty. */
  predicate AgeMatches(age: seq<int>, qs: seq<seq<Packet>>) {
    |age| == |qs| && forall k :: 0 <= k < |qs| ==> (age[k] > 0 <==> qs[k] != []) && age[k] >= 0
  }

  ghost predicate Shape(s: Xbar) {
    && 0 <= s.nextLink < |s.linkReq|
    && |s.linkReq| == |s.linkResp| == |s.linkBusy|
    && |s.quadReq| == |s.quadResp| == |s.quadBusy| == QUADS
    && AgeMatches(s.linkAge, s.linkReq)
    && AgeMatches(s.quadAge, s.quadResp)
    && AllInRange(|s.linkReq|, s.linkReq)
    && AllInRange(|s.linkReq|, s.quadReq)
    && AllInRange(|s.linkReq|, s.quadResp)
    && InRange(|s.linkReq|, s.lookup)
  }

  // ---------------------------------------------------------------- inserting

  function ToLink(s: Xbar, req: Packet, respFlits: int, link: nat): Xbar
    requires link < |s.linkReq| == |s.linkAge|
  {
    var p := req.(link := link);
    s.(linkReq := s.linkReq[link := s.linkReq[link] + [p]],
    lookup := s.lookup + [p.(flits := respFlits, exit := 0)],
    linkAge := s.linkAge[link := 1],
    inserted := s.inserted + [p])
  }

  /** The first link with room among `n` links from `link` on, round robin. */
  function FindLink(qs: seq<seq<Packet>>, depth: nat, link: nat, n: nat): (r: Option<nat>)
    requires link < |qs|
    ensures r.Some? ==> r.value < |qs| && |qs[r.value]| < depth
    decreases n
  {
    if n == 0 then None
    else if |qs[link]| < depth then Some(link)
    else FindLink(qs, depth, (link + 1) % |qs|, n - 1)
  }

  /** InsertHMCReq */
  function Insert(s: Xbar, req: Packet, respFlits: int): Xbar
    requires Shape(s)
  {
    match FindLink(s.linkReq, s.depth, s.nextLink, |s.linkReq|)
    case None => s
    case Some(link) => ToLink(s, req, respFlits, link).(nextLink := (link + 1) % |s.linkReq|)
  }

  // ---------------------------------------------------------------- age queues

  /** Inserts before the first element that the new counter exceeds. The source compares a counter
      with an index here. */
  function AgeInsert(q: seq<nat>, pos: nat, age: int): seq<nat> {
    if q == [] then [pos] else if age > q[0] then [pos] + q else [q[0]] + AgeInsert(q[1..], pos, age)
  }

  /** The age queue after looking at the first `n` positions from `start` on. */
  function AgeQueue(age: seq<int>, start: nat, n: nat): seq<nat>
    requires |age| > 0
  {
    if n == 0 then []
    else
      var pos := (n - 1 + start) % |age|;
      var rest := AgeQueue(age, start, n - 1);
      if age[pos] > 0 then AgeInsert(rest, pos, age[pos]) else rest
  }

  /** BuildAgeQueue */
  function BuildAgeQueue(age: seq<int>, logicClk: nat): seq<nat>
    requires |age| > 0
  {
    AgeQueue(age, logicClk % |age|, |age|)
  }

  lemma {:induction false} AgeInsertMembers(q: seq<nat>, pos: nat, age: int)
    ensures forall x :: x in AgeInsert(q, pos, age) <==> x == pos || x in q
    ensures Distinct(q) && pos !in q ==> Distinct(AgeInsert(q, pos, age))
  {
    if q != [] && age <= q[0] {
      AgeInsertMembers(q[1..], pos, age);
      assert q == [q[0]] + q[1..];
      var r := AgeInsert(q[1..], pos, age);
      if Distinct(q) && pos !in q {
        assert Distinct(q[1..]) && pos !in q[1..];
        forall j | 0 <= j < |r|
          ensures r[j] != q[0]
        {
          assert r[j] in r;
        }
      }
    }
  }

  /** The new position goes before the first entry whose index is below its counter, or to the end. */
  lemma {:induction false} AgeInsertAt(q: seq<nat>, pos: nat, age: int, i: nat)
    requires i <= |q| && (forall j :: 0 <= j < i ==> age <= q[j]) && (i < |q| ==> age > q[i])
    ensures AgeInsert(q, pos, age) == q[..i] + [pos] + q[i..]
    decreases i
  {
    if i > 0 {
      AgeInsertAt(q[1..], pos, age, i - 1);
    }
  }

  /** Positions visited in different rounds of the loop are different. */
  lemma Rotation(a: nat, b: nat, start: nat, n: nat)
    requires a < b < n
    ensures (a + start) % n != (b + start) % n
  {
    var x, y := a + start, b + start;
    assert x == (x / n) * n + x % n && y == (y / n) * n + y % n;
    var d := y / n - x / n;
    Distribute(y / n, -(x / n), n);
    if d <= 0 {
      MulMonotone(d, 0, n);
    } else {
      MulMonotone(1, d, n);
    }
  }

  /** Every position is visited. */
  lemma RotationCovers(pos: nat, start: nat, n: nat) returns (i: nat)
    requires pos < n && start < n
    ensures i < n && (i + start) % n == pos
  {
    if pos >= start {
      i := pos - start;
    } else {
      i := pos + n - start;
      assert i + start == pos + 1 * n;
    }
  }

  lemma {:induction false} AgeQueueMembers(age: seq<int>, start: nat, n: nat, x: nat)
    requires |age| > 0 && n <= |age|
    ensures x in AgeQueue(age, start, n) <==> exists i :: 0 <= i < n && x == Visit(i, start, |age|) && age[x] > 0
  {
    if n > 0 {
      var pos := Visit(n - 1, start, |age|);
      AgeQueueMembers(age, start, n - 1, x);
      AgeInsertMembers(AgeQueue(age, start, n - 1), pos, age[pos]);
      if x == pos && age[pos] > 0 {
        assert x == Visit(n - 1, start, |age|);
      }
    }
  }

  function Visit(i: nat, start: nat, n: nat): (pos: nat)
    requires n > 0
    ensures pos < n
  {
    (i + start) % n
  }

  lemma {:induction false} AgeQueueDistinct(age: seq<int>, start: nat, n: nat)
    requires |age| > 0 && n <= |age|
    ensures Distinct(AgeQueue(age, start, n))
  {
    if n > 0 {
      var pos := Visit(n - 1, start, |age|);
      var rest := AgeQueue(age, start, n - 1);
      AgeQueueDistinct(age, start, n - 1);
      AgeQueueMembers(age, start, n - 1, pos);
      if pos in rest {
        var i :| 0 <= i < n - 1 && pos == Visit(i, start, |age|);
        Rotation(i, n - 1, start, |age|);
      }
      AgeInsertMembers(rest, pos, age[pos]);
    }
  }

  /** BuildAgeQueue returns each index with a positive counter exactly once, and no other. */
  lemma AgeQueueExact(age: seq<int>, logicClk: nat)
    requires |age| > 0
    ensures Distinct(BuildAgeQueue(age, logicClk))
    ensures forall x: nat :: x in BuildAgeQueue(age, logicClk) <==> x < |age| && age[x] > 0
  {
    var start := logicClk % |age|;
    AgeQueueDistinct(age, start, |age|);
    forall x: nat
      ensures x in BuildAgeQueue(age, logicClk) <==> x < |age| && age[x] > 0
    {
      AgeQueueMembers(age, start, |age|, x);
      if x < |age| && age[x] > 0 {
        var i := RotationCovers(x, start, |age|);
        assert x == Visit(i, start, |age|);
      }
    }
  }

  // ---------------------------------------------------------------- draining

  /** Busy outputs carry two flits per logic cycle. */
  function Cool(busy: seq<int>): (r: seq<int>)
    ensures |r| == |busy|
  {
    seq(|busy|, i requires 0 <= i < |busy| => if busy[i] > 0 then busy[i] - 2 else busy[i])
  }

  /** A quad hands its oldest request to the vault if there is room for the response, the packet
      has crossed, and the vault accepts it. */
  function QuadToVault(s: Xbar, i: nat, accepted: bool): (r: Xbar)
    requires Shape(s) && i < QUADS
    ensures Shape(r) && |r.linkReq| == |s.linkReq|
  {
    if s.quadReq[i] != [] && |s.quadResp[i]| < s.depth && s.quadReq[i][0].exit <= s.logicClk && accepted then
      s.(quadReq := s.quadReq[i := s.quadReq[i][1..]], vaults := s.vaults + multiset{s.quadReq[i][0].addr})
    else s
  }

  function QuadsToVaults(s: Xbar, accepts: seq<bool>, n: nat): (r: Xbar)
    requires Shape(s) && |accepts| == QUADS && n <= QUADS
    ensures Shape(r) && |r.linkReq| == |s.linkReq|
  {
    if n == 0 then s else QuadToVault(QuadsToVaults(s, accepts, n - 1), n - 1, accepts[n - 1])
  }

  /** The oldest request of a link crosses to its quad, or the link ages. */
  function LinkToQuad(s: Xbar, src: nat): (r: Xbar)
    requires Shape(s) && src < |s.linkReq| && s.linkReq[src] != []
    ensures Shape(r) && |r.linkReq| == |s.linkReq|
    ensures forall k :: 0 <= k < |s.linkReq| && k != src ==> r.linkReq[k] == s.linkReq[k]
  {
    var p := s.linkReq[src][0];
    assert InRange(|s.linkReq|, s.linkReq[src]);
    if |s.quadReq[p.quad]| < s.depth && s.quadBusy[p.quad] <= 0 then
      var rest := s.linkReq[src][1..];
      s.(linkReq := s.linkReq[src := rest],
      quadReq := s.quadReq[p.quad := s.quadReq[p.quad] + [p.(exit := s.logicClk + p.flits)]],
      quadBusy := s.quadBusy[p.quad := p.flits],
      linkAge := s.linkAge[src := if rest == [] then 0 else 1])
    else s.(linkAge := s.linkAge[src := s.linkAge[src] + 1])
  }

  /** The indices in `order` are distinct and their queues are not empty. */
  predicate Orderly(qs: seq<seq<Packet>>, order: seq<nat>) {
    Distinct(order) && forall x :: x in order ==> x < |qs| && qs[x] != []
  }

  function LinksToQuads(s: Xbar, order: seq<nat>): (r: Xbar)
    requires Shape(s) && Orderly(s.linkReq, order)
    ensures Shape(r) && |r.linkReq| == |s.linkReq|
    decreases |order|
  {
    if order == [] then s
    else
      assert order[0] in order;
      var next := LinkToQuad(s, order[0]);
      OrderlyTail(s.linkReq, next.linkReq, order);
      LinksToQuads(next, order[1..])
  }

  lemma OrderlyTail(qs: seq<seq<Packet>>, qs': seq<seq<Packet>>, order: seq<nat>)
    requires Orderly(qs, order) && order != [] && |qs'| == |qs|
    requires forall k :: 0 <= k < |qs| && k != order[0] ==> qs'[k] == qs[k]
    ensures Orderly(qs', order[1..])
  {
    forall x | x in order[1..]
      ensures x < |qs'| && qs'[x] != []
    {
      var i :| 0 <= i < |order[1..]| && order[1..][i] == x;
      assert order[i + 1] == x && x in order;
    }
  }

  /** The front of every queue that an age queue names exists. */
  lemma AgeQueueIsOrderly(age: seq<int>, qs: seq<seq<Packet>>, logicClk: nat)
    requires AgeMatches(age, qs) && |age| > 0
    ensures Orderly(qs, BuildAgeQueue(age, logicClk))
  {
    AgeQueueExact(age, logicClk);
  }

  /** DrainRequests; `accepts` says which quads' vaults accept a request. */
  function DrainRequests(s: Xbar, accepts: seq<bool>): (r: Xbar)
    requires Shape(s) && |accepts| == QUADS
    ensures Shape(r) && |r.linkReq| == |s.linkReq|
  {
    var served := QuadsToVaults(s, accepts, QUADS);
    var cooled := served.(quadBusy := Cool(served.quadBusy));
    AgeQueueIsOrderly(cooled.linkAge, cooled.linkReq, cooled.logicClk);
    LinksToQuads(cooled, BuildAgeQueue(cooled.linkAge, cooled.logicClk))
  }

  /** A link hands its oldest response to the processor once it has crossed. */
  function LinkToCpu(s: Xbar, i: nat): (r: Xbar)
    requires Shape(s) && i < |s.linkResp|
    ensures Shape(r) && |r.linkReq| == |s.linkReq|
  {
    if s.linkResp[i] != [] && s.linkResp[i][0].exit <= s.logicClk then
      s.(linkResp := s.linkResp[i := s.linkResp[i][1..]], callbacks := s.callbacks + [s.linkResp[i][0]])
    else s
  }

  function LinksToCpu(s: Xbar, n: nat): (r: Xbar)
    requires Shape(s) && n <= |s.linkResp|
    ensures Shape(r) && |r.linkReq| == |s.linkReq|
  {
    if n == 0 then s else LinkToCpu(LinksToCpu(s, n - 1), n - 1)
  }

  function QuadToLink(s: Xbar, src: nat): (r: Xbar)
    requires Shape(s) && src < QUADS && s.quadResp[src] != []
    ensures Shape(r) && |r.linkReq| == |s.linkReq|
    ensures forall k :: 0 <= k < QUADS && k != src ==> r.quadResp[k] == s.quadResp[k]
  {
    var p := s.quadResp[src][0];
    assert InRange(|s.linkReq|, s.quadResp[src]);
    if |s.linkResp[p.link]| < s.depth && s.linkBusy[p.link] <= 0 then
      var rest := s.quadResp[src][1..];
      s.(quadResp := s.quadResp[src := rest],
      linkResp := s.linkResp[p.link := s.linkResp[p.link] + [p.(exit := s.logicClk + p.flits)]],
      linkBusy := s.linkBusy[p.link := p.flits],
      quadAge := s.quadAge[src := if rest == [] then 0 else 1])
    else s.(quadAge := s.quadAge[src := s.quadAge[src] + 1])
  }

  function QuadsToLinks(s: Xbar, order: seq<nat>): (r: Xbar)
    requires Shape(s) && Orderly(s.quadResp, order)
    ensures Shape(r) && |r.linkReq| == |s.linkReq|
    decreases |order|
  {
    if order == [] then s
    else
      assert order[0] in order;
      var next := QuadToLink(s, order[0]);
      OrderlyTail(s.quadResp, next.quadResp, order);
      QuadsToLinks(next, order[1..])
  }

  function DrainResponses(s: Xbar): (r: Xbar)
    requires Shape(s)
    ensures Shape(r) && |r.linkReq| == |s.linkReq|
  {
    var served := LinksToCpu(s, |s.linkResp|);
    var cooled := served.(linkBusy := Cool(served.linkBusy));
    AgeQueueIsOrderly(cooled.quadAge, cooled.quadResp, cooled.logicClk);
    QuadsToLinks(cooled, BuildAgeQueue(cooled.quadAge, cooled.logicClk))
  }

  // ---------------------------------------------------------------- vault callbacks

  function FindAddr(q: seq<Packet>, addr: nat): (r: Option<nat>)
    ensures r.Some? ==> r.value < |q| && q[r.value].addr == addr
    ensures r.None? ==> forall i :: 0 <= i < |q| ==> q[i].addr != addr
  {
    if q == [] then None
    else if q[0].addr == addr then Some(0)
    else
      var r := FindAddr(q[1..], addr);
      if r.None? then None else Some(r.value + 1)
  }

  /** VaultCallback: the source takes an entry of the lookup table without checking that there is one. */
  function VaultCallback(s: Xbar, addr: nat): (r: Xbar)
    requires Shape(s) && FindAddr(s.lookup, addr).Some?
    ensures Shape(r) && |r.linkReq| == |s.linkReq|
  {
    var i := FindAddr(s.lookup, addr).value;
    var resp := s.lookup[i];
    s.(lookup := RemoveAt(s.lookup, i),
    vaults := s.vaults - multiset{addr},
    quadResp := s.quadResp[resp.quad := s.quadResp[resp.quad] + [resp]],
    quadAge := s.quadAge[resp.quad := 1])
  }
}
