/** How packets move through the HMC crossbar: when the front of a queue crosses to the next stage,
    and how full the queues can get. */
module HmcFlow {
  import opened Arithmetic
  import opened Hmc
  import opened HmcRuns

  // ---------------------------------------------------------------- crossings

  /** The front packet of queue `k` of `qs` joins the end of queue `j` of `rs` as `p`. */
  predicate Crosses(qs: seq<seq<Packet>>, k: nat, qs': seq<seq<Packet>>, rs: seq<seq<Packet>>, j: nat, rs': seq<seq<Packet>>, p: Packet)
    requires k < |qs| && qs[k] != [] && j < |rs|
  {
    qs' == qs[k := qs[k][1..]] && rs' == rs[j := rs[j] + [p]]
  }

  /** The front request of a link crosses to its quad exactly if the quad has room and is not busy; it
      arrives after as many logic cycles as it has flits and keeps the quad busy for them. Otherwise
      nothing moves and the link grows older. */
  lemma LinkCrossesIff(s: Xbar, src: nat)
    requires Shape(s) && src < |s.linkReq| && s.linkReq[src] != []
    ensures s.linkReq[src][0].quad < QUADS
    ensures var p, r := s.linkReq[src][0], LinkToQuad(s, src);
            if |s.quadReq[p.quad]| < s.depth && s.quadBusy[p.quad] <= 0 then
              && Crosses(s.linkReq, src, r.linkReq, s.quadReq, p.quad, r.quadReq, p.(exit := s.logicClk + p.flits))
              && r.quadBusy == s.quadBusy[p.quad := p.flits]
            else r == s.(linkAge := s.linkAge[src := s.linkAge[src] + 1])
  {
    assert InRange(|s.linkReq|, s.linkReq[src]);
  }

  /** The front request of a quad goes to its vault exactly if it has crossed, the quad has room for a
      response, and the vault accepts it. */
  lemma QuadServesIff(s: Xbar, i: nat, accepted: bool)
    requires Shape(s) && i < QUADS
    ensures var r := QuadToVault(s, i, accepted);
            if s.quadReq[i] != [] && s.quadReq[i][0].exit <= s.logicClk && |s.quadResp[i]| < s.depth && accepted then
              r == s.(quadReq := s.quadReq[i := s.quadReq[i][1..]], vaults := s.vaults + multiset{s.quadReq[i][0].addr})
            else r == s
  {
  }

  /** The front response of a quad crosses to its link exactly if the link has room and is not busy. */
  lemma QuadCrossesIff(s: Xbar, src: nat)
    requires Shape(s) && src < QUADS && s.quadResp[src] != []
    ensures s.quadResp[src][0].link < |s.linkResp|
    ensures var p, r := s.quadResp[src][0], QuadToLink(s, src);
            if |s.linkResp[p.link]| < s.depth && s.linkBusy[p.link] <= 0 then
              && Crosses(s.quadResp, src, r.quadResp, s.linkResp, p.link, r.linkResp, p.(exit := s.logicClk + p.flits))
              && r.linkBusy == s.linkBusy[p.link := p.flits]
            else r == s.(quadAge := s.quadAge[src := s.quadAge[src] + 1])
  {
    assert InRange(|s.linkReq|, s.quadResp[src]);
  }

  /** The front response of a link is handed to the processor exactly if it has crossed. */
  lemma LinkReturnsIff(s: Xbar, i: nat)
    requires Shape(s) && i < |s.linkResp|
    ensures var r := LinkToCpu(s, i);
            if s.linkResp[i] != [] && s.linkResp[i][0].exit <= s.logicClk then
              r == s.(linkResp := s.linkResp[i := s.linkResp[i][1..]], callbacks := s.callbacks + [s.linkResp[i][0]])
            else r == s
  {
  }

  /** Each busy output carries two flits a drain. */
  lemma CoolingTakesTwo(busy: seq<int>, i: nat)
    requires i < |busy|
    ensures Cool(busy)[i] == if busy[i] > 0 then busy[i] - 2 else busy[i]
  {
  }

  // ---------------------------------------------------------------- insertion

  /** The position that comes `d` turns after `start`. */
  function Turn(start: nat, d: nat, m: nat): (k: nat)
    requires m > 0
    ensures k < m
  {
    (start + d) % m
  }

  lemma TurnFromNext(link: nat, d: nat, m: nat)
    requires link < m
    ensures Turn(link, 0, m) == link && Turn((link + 1) % m, d, m) == Turn(link, d + 1, m)
  {
    Digits(0, link, m);
    VisitNext(d, link, m);
  }

  /** The search takes the first link with room, in turn from `link` on. */
  lemma {:induction false} FindLinkInTurn(qs: seq<seq<Packet>>, depth: nat, link: nat, n: nat) returns (d: nat)
    requires link < |qs| && FindLink(qs, depth, link, n).Some?
    ensures d < n && FindLink(qs, depth, link, n).value == Turn(link, d, |qs|)
    ensures forall e: nat :: e < d ==> |qs[Turn(link, e, |qs|)]| >= depth
    decreases n
  {
    TurnFromNext(link, 0, |qs|);
    if |qs[link]| < depth {
      d := 0;
    } else {
      var next := (link + 1) % |qs|;
      var m := FindLinkInTurn(qs, depth, next, n - 1);
      d := m + 1;
      TurnFromNext(link, m, |qs|);
      forall e: nat | e < d
        ensures |qs[Turn(link, e, |qs|)]| >= depth
      {
        if e > 0 {
          TurnFromNext(link, e - 1, |qs|);
          assert |qs[Turn(next, e - 1, |qs|)]| >= depth;
        }
      }
    }
  }

  /** The request enters link `link`, and the turn goes to the link after it. */
  predicate Enters(s: Xbar, r: Xbar, req: Packet, link: nat)
    requires link < |s.linkReq|
  {
    && r.linkReq == s.linkReq[link := s.linkReq[link] + [req.(link := link)]]
    && r.nextLink == Turn(link, 1, |s.linkReq|)
  }

  lemma InsertEnters(s: Xbar, req: Packet, respFlits: int)
    requires Shape(s) && FindLink(s.linkReq, s.depth, s.nextLink, |s.linkReq|).Some?
    ensures Enters(s, Insert(s, req, respFlits), req, FindLink(s.linkReq, s.depth, s.nextLink, |s.linkReq|).value)
  {
  }

  /** A request enters the first link with room, in turn from the next link on. */
  lemma InsertInTurn(s: Xbar, req: Packet, respFlits: int) returns (d: nat)
    requires Shape(s) && WillAccept(s)
    ensures d < |s.linkReq|
    ensures forall e: nat :: e < d ==> |s.linkReq[Turn(s.nextLink, e, |s.linkReq|)]| >= s.depth
    ensures Enters(s, Insert(s, req, respFlits), req, Turn(s.nextLink, d, |s.linkReq|))
  {
    InsertIffRoom(s, req, respFlits);
    assert FindLink(s.linkReq, s.depth, s.nextLink, |s.linkReq|).Some?;
    d := FindLinkInTurn(s.linkReq, s.depth, s.nextLink, |s.linkReq|);
    InsertEnters(s, req, respFlits);
  }

  // ---------------------------------------------------------------- age queues

  /** Exactly the positions after `dx` and `dy` turns wait. */
  ghost predicate OnlyTwo(age: seq<int>, start: nat, dx: nat, dy: nat)
    requires |age| > 0
  {
    dx < dy < |age| && forall d: nat :: d < |age| ==> (age[Turn(start, d, |age|)] > 0 <==> d == dx || d == dy)
  }

  lemma InsertSmall(x: nat, y: nat, age: int)
    ensures AgeInsert([], x, age) == [x]
    ensures AgeInsert([x], y, age) == if age > x then [y, x] else [x, y]
  {
    assert AgeInsert([x][1..], y, age) == [y];
  }

  /** The queue after `n` turns. */
  function TwoUpTo(age: seq<int>, start: nat, dx: nat, dy: nat, n: nat): seq<nat>
    requires |age| > 0
  {
    var x, y := Turn(start, dx, |age|), Turn(start, dy, |age|);
    if n <= dx then [] else if n <= dy then [x] else if age[y] > x then [y, x] else [x, y]
  }

  lemma TwoAgesStep(age: seq<int>, start: nat, dx: nat, dy: nat, n: nat)
    requires |age| > 0 && 0 < n <= |age| && OnlyTwo(age, start, dx, dy)
    ensures var pos, rest := Turn(start, n - 1, |age|), TwoUpTo(age, start, dx, dy, n - 1);
            TwoUpTo(age, start, dx, dy, n) == if age[pos] > 0 then AgeInsert(rest, pos, age[pos]) else rest
  {
    var pos := Turn(start, n - 1, |age|);
    InsertSmall(pos, pos, age[pos]);
    InsertSmall(Turn(start, dx, |age|), pos, age[pos]);
  }

  lemma {:induction false} TwoAgesUpTo(age: seq<int>, start: nat, dx: nat, dy: nat, n: nat)
    requires |age| > 0 && n <= |age| && OnlyTwo(age, start, dx, dy)
    ensures AgeQueue(age, start, n) == TwoUpTo(age, start, dx, dy, n)
    decreases n
  {
    if n > 0 {
      TwoAgesUpTo(age, start, dx, dy, n - 1);
      TwoAgesStep(age, start, dx, dy, n);
      assert Turn(start, n - 1, |age|) == (n - 1 + start) % |age|;
    }
  }

  /** With two positions waiting, the one that comes first in turn from the clock on goes first, unless
      the other's counter exceeds its index. */
  lemma TwoAges(age: seq<int>, logicClk: nat, dx: nat, dy: nat)
    requires |age| > 0 && OnlyTwo(age, Turn(logicClk, 0, |age|), dx, dy)
    ensures var start := Turn(logicClk, 0, |age|);
            var x, y := Turn(start, dx, |age|), Turn(start, dy, |age|);
            BuildAgeQueue(age, logicClk) == if age[y] > x then [y, x] else [x, y]
  {
    TwoAgesUpTo(age, Turn(logicClk, 0, |age|), dx, dy, |age|);
  }

  // ---------------------------------------------------------------- whole drains

  /** What the vaults take from the quads in one drain. */
  lemma {:induction false} EveryQuadServes(s: Xbar, accepts: seq<bool>, n: nat, i: nat)
    requires Shape(s) && |accepts| == QUADS && n <= QUADS && i < QUADS
    ensures var r := QuadsToVaults(s, accepts, n);
            && r.quadResp == s.quadResp && r.depth == s.depth && r.logicClk == s.logicClk
            && r.quadReq[i] == if i < n && Served(s, accepts, i) then s.quadReq[i][1..] else s.quadReq[i]
  {
    if n > 0 {
      EveryQuadServes(s, accepts, n - 1, i);
      EveryQuadServes(s, accepts, n - 1, n - 1);
      QuadServesIff(QuadsToVaults(s, accepts, n - 1), n - 1, accepts[n - 1]);
    }
  }

  predicate Served(s: Xbar, accepts: seq<bool>, i: nat)
    requires Shape(s) && |accepts| == QUADS && i < QUADS
  {
    s.quadReq[i] != [] && s.quadReq[i][0].exit <= s.logicClk && |s.quadResp[i]| < s.depth && accepts[i]
  }

  /** The quad takes no further request in this drain. */
  predicate QuadBlocked(s: Xbar, q: nat)
    requires Shape(s) && q < QUADS
  {
    |s.quadReq[q]| >= s.depth || s.quadBusy[q] > 0
  }

  lemma CrossingKeepsBlocked(s: Xbar, src: nat, q: nat)
    requires Shape(s) && src < |s.linkReq| && s.linkReq[src] != [] && q < QUADS && QuadBlocked(s, q)
    ensures QuadBlocked(LinkToQuad(s, src), q)
  {
    LinkCrossesIff(s, src);
  }

  lemma {:induction false} PassKeepsBlocked(s: Xbar, order: seq<nat>, q: nat)
    requires Shape(s) && Orderly(s.linkReq, order) && q < QUADS && QuadBlocked(s, q)
    ensures QuadBlocked(LinksToQuads(s, order), q)
    decreases |order|
  {
    if order != [] {
      assert order[0] in order;
      CrossingKeepsBlocked(s, order[0], q);
      OrderlyTail(s.linkReq, LinkToQuad(s, order[0]).linkReq, order);
      PassKeepsBlocked(LinkToQuad(s, order[0]), order[1..], q);
    }
  }

  lemma {:induction false} PassLeavesOthers(s: Xbar, order: seq<nat>, x: nat)
    requires Shape(s) && Orderly(s.linkReq, order) && x < |s.linkReq| && x !in order
    ensures LinksToQuads(s, order).linkReq[x] == s.linkReq[x]
    decreases |order|
  {
    if order != [] {
      assert order[0] in order;
      OrderlyTail(s.linkReq, LinkToQuad(s, order[0]).linkReq, order);
      PassLeavesOthers(LinkToQuad(s, order[0]), order[1..], x);
    }
  }

  /** A link in the age queue sends its front request, and one only, or finds its quad full or busy. */
  lemma {:induction false} PassSends(s: Xbar, order: seq<nat>, x: nat)
    requires Shape(s) && Orderly(s.linkReq, order) && x in order
    ensures s.linkReq[x][0].quad < QUADS
    ensures var r := LinksToQuads(s, order);
            || r.linkReq[x] == s.linkReq[x][1..]
            || (r.linkReq[x] == s.linkReq[x] && QuadBlocked(r, s.linkReq[x][0].quad))
    decreases |order|
  {
    assert order[0] in order && InRange(|s.linkReq|, s.linkReq[x]);
    var next := LinkToQuad(s, order[0]);
    OrderlyTail(s.linkReq, next.linkReq, order);
    if x == order[0] {
      LinkCrossesIff(s, x);
      assert x !in order[1..];
      PassLeavesOthers(next, order[1..], x);
      if QuadBlocked(next, s.linkReq[x][0].quad) {
        PassKeepsBlocked(next, order[1..], s.linkReq[x][0].quad);
      }
    } else {
      PassSends(next, order[1..], x);
    }
  }

  /** In one drain every link that has a request sends its oldest one to its quad, unless the quad is
      full or busy then. */
  lemma EveryLinkSends(s: Xbar, accepts: seq<bool>, x: nat)
    requires Shape(s) && |accepts| == QUADS && x < |s.linkReq| && s.linkReq[x] != []
    ensures s.linkReq[x][0].quad < QUADS
    ensures var r := DrainRequests(s, accepts);
            || r.linkReq[x] == s.linkReq[x][1..]
            || (r.linkReq[x] == s.linkReq[x] && QuadBlocked(r, s.linkReq[x][0].quad))
  {
    ServingKeepsLinks(s, accepts, QUADS);
    var served := QuadsToVaults(s, accepts, QUADS);
    var cooled := served.(quadBusy := Cool(served.quadBusy));
    var order := BuildAgeQueue(cooled.linkAge, cooled.logicClk);
    AgeQueueExact(cooled.linkAge, cooled.logicClk);
    AgeQueueIsOrderly(cooled.linkAge, cooled.linkReq, cooled.logicClk);
    PassSends(cooled, order, x);
  }

  lemma {:induction false} ServingKeepsLinks(s: Xbar, accepts: seq<bool>, n: nat)
    requires Shape(s) && |accepts| == QUADS && n <= QUADS
    ensures QuadsToVaults(s, accepts, n).linkReq == s.linkReq
  {
    if n > 0 {
      ServingKeepsLinks(s, accepts, n - 1);
    }
  }

  /** Link `i` after the first `n` links have been served. */
  predicate ReturnedAt(s: Xbar, r: Xbar, n: nat, i: nat)
    requires i < |s.linkResp|
  {
    && |r.linkResp| == |s.linkResp| && r.quadResp == s.quadResp && r.depth == s.depth && r.logicClk == s.logicClk
    && r.linkResp[i] == if i < n && Arrived(s, i) then s.linkResp[i][1..] else s.linkResp[i]
  }

  lemma ReturningOne(s: Xbar, r: Xbar, n: nat, i: nat)
    requires Shape(r) && n < |s.linkResp| && i < |s.linkResp| && ReturnedAt(s, r, n, i) && ReturnedAt(s, r, n, n)
    ensures ReturnedAt(s, LinkToCpu(r, n), n + 1, i)
  {
    LinkReturnsIff(r, n);
  }

  /** What the processor takes from the links in one drain. */
  lemma {:induction false} EveryLinkReturns(s: Xbar, n: nat, i: nat)
    requires Shape(s) && n <= |s.linkResp| && i < |s.linkResp|
    ensures ReturnedAt(s, LinksToCpu(s, n), n, i)
  {
    if n > 0 {
      EveryLinkReturns(s, n - 1, i);
      EveryLinkReturns(s, n - 1, n - 1);
      ReturningOne(s, LinksToCpu(s, n - 1), n - 1, i);
    }
  }

  predicate Arrived(s: Xbar, i: nat)
    requires i < |s.linkResp|
  {
    s.linkResp[i] != [] && s.linkResp[i][0].exit <= s.logicClk
  }

  /** The link takes no further response in this drain. */
  predicate LinkBlocked(s: Xbar, l: nat)
    requires Shape(s) && l < |s.linkResp|
  {
    |s.linkResp[l]| >= s.depth || s.linkBusy[l] > 0
  }

  lemma AnswerKeepsBlocked(s: Xbar, src: nat, l: nat)
    requires Shape(s) && src < QUADS && s.quadResp[src] != [] && l < |s.linkResp| && LinkBlocked(s, l)
    ensures LinkBlocked(QuadToLink(s, src), l)
  {
    QuadCrossesIff(s, src);
  }

  lemma {:induction false} AnswersKeepBlocked(s: Xbar, order: seq<nat>, l: nat)
    requires Shape(s) && Orderly(s.quadResp, order) && l < |s.linkResp| && LinkBlocked(s, l)
    ensures LinkBlocked(QuadsToLinks(s, order), l)
    decreases |order|
  {
    if order != [] {
      assert order[0] in order;
      AnswerKeepsBlocked(s, order[0], l);
      OrderlyTail(s.quadResp, QuadToLink(s, order[0]).quadResp, order);
      AnswersKeepBlocked(QuadToLink(s, order[0]), order[1..], l);
    }
  }

  lemma {:induction false} AnswersLeaveOthers(s: Xbar, order: seq<nat>, x: nat)
    requires Shape(s) && Orderly(s.quadResp, order) && x < QUADS && x !in order
    ensures QuadsToLinks(s, order).quadResp[x] == s.quadResp[x]
    decreases |order|
  {
    if order != [] {
      assert order[0] in order;
      OrderlyTail(s.quadResp, QuadToLink(s, order[0]).quadResp, order);
      AnswersLeaveOthers(QuadToLink(s, order[0]), order[1..], x);
    }
  }

  /** A quad in the age queue sends its front response, and one only, or finds its link full or busy. */
  lemma {:induction false} AnswersSent(s: Xbar, order: seq<nat>, x: nat)
    requires Shape(s) && Orderly(s.quadResp, order) && x in order
    ensures s.quadResp[x][0].link < |QuadsToLinks(s, order).linkResp|
    ensures var r := QuadsToLinks(s, order);
            || r.quadResp[x] == s.quadResp[x][1..]
            || (r.quadResp[x] == s.quadResp[x] && LinkBlocked(r, s.quadResp[x][0].link))
    decreases |order|
  {
    assert order[0] in order && InRange(|s.linkReq|, s.quadResp[x]);
    var next := QuadToLink(s, order[0]);
    OrderlyTail(s.quadResp, next.quadResp, order);
    if x == order[0] {
      QuadCrossesIff(s, x);
      assert x !in order[1..];
      AnswersLeaveOthers(next, order[1..], x);
      if LinkBlocked(next, s.quadResp[x][0].link) {
        AnswersKeepBlocked(next, order[1..], s.quadResp[x][0].link);
      }
    } else {
      AnswersSent(next, order[1..], x);
    }
  }

  /** In one drain every quad that has a response sends its oldest one to its link, unless the link is
      full or busy then. */
  lemma EveryQuadSends(s: Xbar, x: nat)
    requires Shape(s) && x < QUADS && s.quadResp[x] != []
    ensures s.quadResp[x][0].link < |DrainResponses(s).linkResp|
    ensures var r := DrainResponses(s);
            || r.quadResp[x] == s.quadResp[x][1..]
            || (r.quadResp[x] == s.quadResp[x] && LinkBlocked(r, s.quadResp[x][0].link))
  {
    assert InRange(|s.linkReq|, s.quadResp[x]);
    EveryLinkReturns(s, |s.linkResp|, s.quadResp[x][0].link);
    var served := LinksToCpu(s, |s.linkResp|);
    var cooled := served.(linkBusy := Cool(served.linkBusy));
    var order := BuildAgeQueue(cooled.quadAge, cooled.logicClk);
    AgeQueueExact(cooled.quadAge, cooled.logicClk);
    AgeQueueIsOrderly(cooled.quadAge, cooled.quadResp, cooled.logicClk);
    AnswersSent(cooled, order, x);
  }

  // ---------------------------------------------------------------- capacity

  predicate Within(qs: seq<seq<Packet>>, depth: nat) {
    forall k :: 0 <= k < |qs| ==> |qs[k]| <= depth
  }

  /** The queues that a packet enters only if there is room. */
  predicate Bounded(s: Xbar) {
    Within(s.linkReq, s.depth) && Within(s.quadReq, s.depth) && Within(s.linkResp, s.depth)
  }

  lemma InsertBounded(s: Xbar, req: Packet, respFlits: int)
    requires Shape(s) && Bounded(s)
    ensures Bounded(Insert(s, req, respFlits)) && Insert(s, req, respFlits).depth == s.depth
  {
  }

  lemma {:induction false} QuadsToVaultsBounded(s: Xbar, accepts: seq<bool>, n: nat)
    requires Shape(s) && |accepts| == QUADS && n <= QUADS && Bounded(s)
    ensures Bounded(QuadsToVaults(s, accepts, n)) && QuadsToVaults(s, accepts, n).depth == s.depth
  {
    if n > 0 {
      QuadsToVaultsBounded(s, accepts, n - 1);
      QuadServesIff(QuadsToVaults(s, accepts, n - 1), n - 1, accepts[n - 1]);
    }
  }

  lemma LinkToQuadBounded(s: Xbar, src: nat)
    requires Shape(s) && src < |s.linkReq| && s.linkReq[src] != [] && Bounded(s)
    ensures Bounded(LinkToQuad(s, src)) && LinkToQuad(s, src).depth == s.depth
  {
    assert InRange(|s.linkReq|, s.linkReq[src]);
  }

  lemma {:induction false} LinksToQuadsBounded(s: Xbar, order: seq<nat>)
    requires Shape(s) && Orderly(s.linkReq, order) && Bounded(s)
    ensures Bounded(LinksToQuads(s, order)) && LinksToQuads(s, order).depth == s.depth
    decreases |order|
  {
    if order != [] {
      assert order[0] in order;
      LinkToQuadBounded(s, order[0]);
      OrderlyTail(s.linkReq, LinkToQuad(s, order[0]).linkReq, order);
      LinksToQuadsBounded(LinkToQuad(s, order[0]), order[1..]);
    }
  }

  lemma RequestsBounded(s: Xbar, accepts: seq<bool>)
    requires Shape(s) && |accepts| == QUADS && Bounded(s)
    ensures Bounded(DrainRequests(s, accepts)) && DrainRequests(s, accepts).depth == s.depth
  {
    QuadsToVaultsBounded(s, accepts, QUADS);
    var served := QuadsToVaults(s, accepts, QUADS);
    var cooled := served.(quadBusy := Cool(served.quadBusy));
    AgeQueueIsOrderly(cooled.linkAge, cooled.linkReq, cooled.logicClk);
    LinksToQuadsBounded(cooled, BuildAgeQueue(cooled.linkAge, cooled.logicClk));
  }

  lemma {:induction false} LinksToCpuBounded(s: Xbar, n: nat)
    requires Shape(s) && n <= |s.linkResp| && Bounded(s)
    ensures Bounded(LinksToCpu(s, n)) && LinksToCpu(s, n).depth == s.depth
  {
    if n > 0 {
      LinksToCpuBounded(s, n - 1);
      LinkReturnsIff(LinksToCpu(s, n - 1), n - 1);
    }
  }

  lemma QuadToLinkBounded(s: Xbar, src: nat)
    requires Shape(s) && src < QUADS && s.quadResp[src] != [] && Bounded(s)
    ensures Bounded(QuadToLink(s, src)) && QuadToLink(s, src).depth == s.depth
  {
    assert InRange(|s.linkReq|, s.quadResp[src]);
  }

  lemma {:induction false} QuadsToLinksBounded(s: Xbar, order: seq<nat>)
    requires Shape(s) && Orderly(s.quadResp, order) && Bounded(s)
    ensures Bounded(QuadsToLinks(s, order)) && QuadsToLinks(s, order).depth == s.depth
    decreases |order|
  {
    if order != [] {
      assert order[0] in order;
      QuadToLinkBounded(s, order[0]);
      OrderlyTail(s.quadResp, QuadToLink(s, order[0]).quadResp, order);
      QuadsToLinksBounded(QuadToLink(s, order[0]), order[1..]);
    }
  }

  lemma ResponsesBounded(s: Xbar)
    requires Shape(s) && Bounded(s)
    ensures Bounded(DrainResponses(s)) && DrainResponses(s).depth == s.depth
  {
    LinksToCpuBounded(s, |s.linkResp|);
    var served := LinksToCpu(s, |s.linkResp|);
    var cooled := served.(linkBusy := Cool(served.linkBusy));
    AgeQueueIsOrderly(cooled.quadAge, cooled.quadResp, cooled.logicClk);
    QuadsToLinksBounded(cooled, BuildAgeQueue(cooled.quadAge, cooled.logicClk));
  }

  lemma StepBounded(s: Xbar, e: Event)
    requires Shape(s) && Enabled(s, e) && Step(s, e).Some? && Bounded(s)
    ensures Bounded(Step(s, e).value) && Step(s, e).value.depth == s.depth
  {
    match e {
      case Inserting(req, flits) => InsertBounded(s, req, flits);
      case Requests(accepts) => RequestsBounded(s, accepts);
      case Responses => ResponsesBounded(s);
      case Reporting(_) =>
      case LogicCycle =>
    }
  }

  /** In every behaviour the link request queues, the quad request queues and the link response
      queues hold at most as many packets as the configured depth. */
  lemma {:induction false} QueuesStayWithin(links: nat, depth: nat, states: seq<Xbar>, events: seq<Event>, n: nat)
    requires Behaviour(links, depth, states, events) && n < |states|
    ensures states[n].depth == depth
    ensures forall k :: 0 <= k < |states[n].linkReq| ==> |states[n].linkReq[k]| <= depth
    ensures forall k :: 0 <= k < |states[n].quadReq| ==> |states[n].quadReq[k]| <= depth
    ensures forall k :: 0 <= k < |states[n].linkResp| ==> |states[n].linkResp[k]| <= depth
    decreases n
  {
    if n > 0 {
      QueuesStayWithin(links, depth, states, events, n - 1);
      assert FollowsAt(states, events, n - 1);
      StepBounded(states[n - 1], events[n - 1]);
    }
  }
}
