/** The HMC memory system as an object, with the source's loops. */
module HmcObject {
  import opened Basics
  import opened Arithmetic
  import opened Hmc

  class HmcMemorySystem {
    const depth: nat
    var logicClk: nat
    var nextLink: nat
    var linkReq: seq<seq<Packet>>
    var quadReq: seq<seq<Packet>>
    var quadResp: seq<seq<Packet>>
    var linkResp: seq<seq<Packet>>
    var linkBusy: seq<int>
    var quadBusy: seq<int>
    var linkAge: seq<int>
    var quadAge: seq<int>
    var lookup: seq<Packet>
    ghost var vaults: multiset<nat>
    ghost var inserted: seq<Packet>
    ghost var callbacks: seq<Packet>

    ghost function Abs(): Xbar
      reads this
    {
      Xbar(depth, logicClk, nextLink, linkReq, quadReq, quadResp, linkResp, linkBusy, quadBusy, linkAge, quadAge,
           lookup, vaults, inserted, callbacks)
    }

    constructor (links: nat, depth: nat)
      ensures Abs() == InitialXbar(links, depth)
    {
      this.depth := depth;
      logicClk, nextLink := 0, 0;
      linkReq, linkResp := seq(links, _ => []), seq(links, _ => []);
      quadReq, quadResp := seq(QUADS, _ => []), seq(QUADS, _ => []);
      linkBusy, linkAge := seq(links, _ => 0), seq(links, _ => 0);
      quadBusy, quadAge := seq(QUADS, _ => 0), seq(QUADS, _ => 0);
      lookup := [];
      vaults, inserted, callbacks := multiset{}, [], [];
    }

    method InsertReqToLink(req: Packet, respFlits: int, link: nat) returns (ok: bool)
      requires link < |linkReq| == |linkAge|
      modifies this
      ensures ok == (|old(linkReq)[link]| < depth)
      ensures Abs() == if ok then ToLink(old(Abs()), req, respFlits, link) else old(Abs())
    {
      if |linkReq[link]| < depth {
        var p := req.(link := link);
        linkReq := linkReq[link := linkReq[link] + [p]];
        lookup := lookup + [p.(flits := respFlits, exit := 0)];
        linkAge := linkAge[link := 1];
        inserted := inserted + [p];
        return true;
      }
      return false;
    }

    method InsertHMCReq(req: Packet, respFlits: int) returns (ok: bool)
      requires Shape(Abs())
      modifies this
      ensures Abs() == Insert(old(Abs()), req, respFlits)
      ensures ok == FindLink(old(linkReq), depth, old(nextLink), |old(linkReq)|).Some?
    {
      var start := nextLink;
      ok := InsertReqToLink(req, respFlits, nextLink);
      IterateNextLink();
      if !ok {
        NextVisit(start, 0, |linkReq|);
        ok := RetryLinks(req, respFlits, start);
      }
    }

    method IterateNextLink()
      requires |linkReq| > 0
      modifies this`nextLink
      ensures nextLink == (old(nextLink) + 1) % |linkReq|
    {
      nextLink := (nextLink + 1) % |linkReq|;
    }

    /** The loop of InsertHMCReq over the other links, until the round robin is back at `start`. */
    method RetryLinks(req: Packet, respFlits: int, start: nat) returns (ok: bool)
      requires start < |linkReq| == |linkAge| && nextLink == Visit(1, start, |linkReq|)
      modifies this
      ensures ok == FindLink(old(linkReq), depth, old(nextLink), |old(linkReq)| - 1).Some?
      ensures Abs() == if ok then
                         var link := FindLink(old(linkReq), depth, old(nextLink), |old(linkReq)| - 1).value;
                         ToLink(old(Abs()), req, respFlits, link).(nextLink := (link + 1) % |old(linkReq)|)
                       else old(Abs()).(nextLink := start)
    {
      var links := |linkReq|;
      ghost var tries := 1;
      Wraps(start, 1, links);
      while start != nextLink
        invariant 1 <= tries <= links
        invariant nextLink == Visit(tries, start, links)
        invariant start == nextLink <==> tries == links
        invariant Abs() == old(Abs()).(nextLink := nextLink)
        invariant FindLink(old(linkReq), depth, old(nextLink), links - 1) == FindLink(old(linkReq), depth, nextLink, links - tries)
        decreases links - tries
      {
        NextVisit(start, tries, links);
        Wraps(start, tries + 1, links);
        ok := InsertReqToLink(req, respFlits, nextLink);
        IterateNextLink();
        if ok {
          return;
        }
        tries := tries + 1;
      }
      return false;
    }

    static lemma NextVisit(start: nat, k: nat, m: nat)
      requires start < m
      ensures (Visit(k, start, m) + 1) % m == Visit(k + 1, start, m)
      ensures Visit(0, start, m) == start
    {
      var x := k + start;
      assert x == (x / m) * m + x % m;
      if x % m + 1 < m {
        Digits(x / m, x % m + 1, m);
        Digits(0, x % m + 1, m);
      } else {
        Distribute(x / m, 1, m);
        Digits(x / m + 1, 0, m);
        Digits(1, 0, m);
      }
      Digits(0, start, m);
    }

    /** The round robin is back at its start exactly after all links. */
    static lemma Wraps(start: nat, k: nat, m: nat)
      requires start < m && 1 <= k <= m
      ensures Visit(k, start, m) == start <==> k == m
    {
    }

    static method BuildAgeQueueLoop(age: seq<int>, logicClk: nat) returns (q: seq<nat>)
      requires |age| > 0
      ensures q == BuildAgeQueue(age, logicClk)
    {
      q := [];
      var start := logicClk % |age|;
      for i := 0 to |age|
        invariant q == AgeQueue(age, start, i)
      {
        var pos := (i + start) % |age|;
        if age[pos] > 0 {
          q := InsertByAge(q, pos, age[pos]);
        }
      }
    }

    static method InsertByAge(q: seq<nat>, pos: nat, age: int) returns (r: seq<nat>)
      ensures r == AgeInsert(q, pos, age)
    {
      for i := 0 to |q|
        invariant forall j :: 0 <= j < i ==> age <= q[j]
      {
        if age > q[i] {
          InsertAt(q, pos, age, i);
          return q[..i] + [pos] + q[i..];
        }
      }
      InsertAt(q, pos, age, |q|);
      assert q[..|q|] == q && q[|q|..] == [];
      return q + [pos];
    }

    /** The new index goes before the first entry it exceeds. */
    static lemma {:induction false} InsertAt(q: seq<nat>, pos: nat, age: int, i: nat)
      requires i <= |q| && (forall j :: 0 <= j < i ==> age <= q[j]) && (i < |q| ==> age > q[i])
      ensures AgeInsert(q, pos, age) == q[..i] + [pos] + q[i..]
      decreases i
    {
      if i > 0 {
        InsertAt(q[1..], pos, age, i - 1);
        assert q[..i] == [q[0]] + q[1..][..i - 1] && q[1..][i - 1..] == q[i..];
      }
    }

    static method CoolDown(busy: seq<int>) returns (r: seq<int>)
      ensures r == Cool(busy)
    {
      r := busy;
      for i := 0 to |busy|
        invariant |r| == |busy|
        invariant forall j :: 0 <= j < i ==> r[j] == if busy[j] > 0 then busy[j] - 2 else busy[j]
        invariant forall j :: i <= j < |busy| ==> r[j] == busy[j]
      {
        if r[i] > 0 {
          r := r[i := r[i] - 2];
        }
      }
    }

    method DrainRequestsLoop(accepts: seq<bool>)
      requires Shape(Abs()) && |accepts| == QUADS
      modifies this
      ensures Abs() == DrainRequests(old(Abs()), accepts)
    {
      for i := 0 to QUADS
        invariant Abs() == QuadsToVaults(old(Abs()), accepts, i)
      {
        DrainQuad(i, accepts[i]);
      }
      quadBusy := CoolDown(quadBusy);
      var order := BuildAgeQueueLoop(linkAge, logicClk);
      AgeQueueIsOrderly(linkAge, linkReq, logicClk);
      DrainLinks(order);
    }

    method DrainLinks(ages: seq<nat>)
      requires Shape(Abs()) && Orderly(linkReq, ages)
      modifies this
      ensures Abs() == LinksToQuads(old(Abs()), ages)
    {
      var order := ages;
      while order != []
        invariant Shape(Abs()) && Orderly(linkReq, order)
        invariant LinksToQuads(Abs(), order) == LinksToQuads(old(Abs()), ages)
        decreases |order|
      {
        ghost var qs := linkReq;
        assert order[0] in order;
        DrainLink(order[0]);
        OrderlyTail(qs, linkReq, order);
        order := order[1..];
      }
    }

    method DrainQuad(i: nat, accepted: bool)
      requires Shape(Abs()) && i < QUADS
      modifies this
      ensures Abs() == QuadToVault(old(Abs()), i, accepted)
    {
      if |quadReq[i]| > 0 && |quadResp[i]| < depth {
        var req := quadReq[i][0];
        if req.exit <= logicClk {
          if accepted {
            vaults := vaults + multiset{req.addr};
            quadReq := quadReq[i := quadReq[i][1..]];
          }
        }
      }
    }

    method DrainLink(src: nat)
      requires Shape(Abs()) && src < |linkReq| && linkReq[src] != []
      modifies this
      ensures Abs() == LinkToQuad(old(Abs()), src)
    {
      var req := linkReq[src][0];
      assert InRange(|linkReq|, linkReq[src]);
      if |quadReq[req.quad]| < depth && quadBusy[req.quad] <= 0 {
        linkReq := linkReq[src := linkReq[src][1..]];
        quadReq := quadReq[req.quad := quadReq[req.quad] + [req.(exit := logicClk + req.flits)]];
        quadBusy := quadBusy[req.quad := req.flits];
        linkAge := linkAge[src := if linkReq[src] == [] then 0 else 1];
      } else {
        linkAge := linkAge[src := linkAge[src] + 1];
      }
    }

    method DrainResponsesLoop()
      requires Shape(Abs())
      modifies this
      ensures Abs() == DrainResponses(old(Abs()))
    {
      DrainLinkResponses();
      linkBusy := CoolDown(linkBusy);
      var order := BuildAgeQueueLoop(quadAge, logicClk);
      AgeQueueIsOrderly(quadAge, quadResp, logicClk);
      DrainQuadResponses(order);
    }

    method DrainLinkResponses()
      requires Shape(Abs())
      modifies this
      ensures Abs() == LinksToCpu(old(Abs()), |old(linkResp)|)
    {
      for i := 0 to |linkResp|
        invariant |linkResp| == |old(linkResp)|
        invariant Abs() == LinksToCpu(old(Abs()), i)
      {
        DrainLinkResponse(i);
      }
    }

    method DrainQuadResponses(ages: seq<nat>)
      requires Shape(Abs()) && Orderly(quadResp, ages)
      modifies this
      ensures Abs() == QuadsToLinks(old(Abs()), ages)
    {
      var order := ages;
      while order != []
        invariant Shape(Abs()) && Orderly(quadResp, order)
        invariant QuadsToLinks(Abs(), order) == QuadsToLinks(old(Abs()), ages)
        decreases |order|
      {
        ghost var qs := quadResp;
        assert order[0] in order;
        DrainQuadResponse(order[0]);
        OrderlyTail(qs, quadResp, order);
        order := order[1..];
      }
    }

    method DrainLinkResponse(i: nat)
      requires Shape(Abs()) && i < |linkResp|
      modifies this
      ensures Abs() == LinkToCpu(old(Abs()), i)
    {
      if |linkResp[i]| > 0 {
        var resp := linkResp[i][0];
        if resp.exit <= logicClk {
          callbacks := callbacks + [resp];
          linkResp := linkResp[i := linkResp[i][1..]];
        }
      }
    }

    method DrainQuadResponse(src: nat)
      requires Shape(Abs()) && src < QUADS && quadResp[src] != []
      modifies this
      ensures Abs() == QuadToLink(old(Abs()), src)
    {
      var resp := quadResp[src][0];
      assert InRange(|linkReq|, quadResp[src]);
      if |linkResp[resp.link]| < depth && linkBusy[resp.link] <= 0 {
        quadResp := quadResp[src := quadResp[src][1..]];
        linkResp := linkResp[resp.link := linkResp[resp.link] + [resp.(exit := logicClk + resp.flits)]];
        linkBusy := linkBusy[resp.link := resp.flits];
        quadAge := quadAge[src := if quadResp[src] == [] then 0 else 1];
      } else {
        quadAge := quadAge[src := quadAge[src] + 1];
      }
    }

    static method FindResponse(q: seq<Packet>, addr: nat) returns (i: nat)
      requires FindAddr(q, addr).Some?
      ensures FindAddr(q, addr) == Some(i)
    {
      i := 0;
      FirstFound(q, addr, FindAddr(q, addr).value);
      while q[i].addr != addr
        invariant i <= FindAddr(q, addr).value
        decreases |q| - i
      {
        i := i + 1;
      }
    }

    static lemma {:induction false} FirstFound(q: seq<Packet>, addr: nat, n: nat)
      requires FindAddr(q, addr) == Some(n)
      ensures forall j :: 0 <= j < n ==> q[j].addr != addr
      decreases n
    {
      if n > 0 {
        FirstFound(q[1..], addr, n - 1);
        assert forall j :: 0 < j < n ==> q[j] == q[1..][j - 1];
      }
    }

    /** The caller guarantees the lookup; HmcRuns proves that every reachable call does. */
    method VaultCallbackFor(addr: nat)
      requires Shape(Abs()) && FindAddr(lookup, addr).Some?
      modifies this
      ensures Abs() == VaultCallback(old(Abs()), addr)
    {
      var i := FindResponse(lookup, addr);
      var resp := lookup[i];
      lookup := lookup[..i] + lookup[i + 1..];
      vaults := vaults - multiset{addr};
      quadResp := quadResp[resp.quad := quadResp[resp.quad] + [resp]];
      quadAge := quadAge[resp.quad := 1];
    }
  }
}
