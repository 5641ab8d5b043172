/** Conservation in the HMC crossbar, for every order of insertions, drains and vault reports. */
module HmcRuns {
  import opened Basics
  import opened Arithmetic
  import opened Hmc

  // ---------------------------------------------------------------- counting

  /** The packet has address `a` and, if `w` says so, the direction `w`. */
  predicate Hit(p: Packet, a: nat, w: Option<bool>) {
    p.addr == a && (w.Some? ==> p.isWrite == w.value)
  }

  function One(p: Packet, a: nat, w: Option<bool>): nat {
    if Hit(p, a, w) then 1 else 0
  }

  function Count(q: seq<Packet>, a: nat, w: Option<bool>): nat {
    if q == [] then 0 else One(q[0], a, w) + Count(q[1..], a, w)
  }

  function Total(qs: seq<seq<Packet>>, a: nat, w: Option<bool>): nat {
    if qs == [] then 0 else Count(qs[0], a, w) + Total(qs[1..], a, w)
  }

  lemma {:induction false} CountLast(q: seq<Packet>, p: Packet, a: nat, w: Option<bool>)
    ensures Count(q + [p], a, w) == Count(q, a, w) + One(p, a, w)
  {
    if q == [] {
      assert q + [p] == [p];
    } else {
      assert (q + [p])[1..] == q[1..] + [p];
      CountLast(q[1..], p, a, w);
    }
  }

  lemma {:induction false} CountRemove(q: seq<Packet>, i: nat, a: nat, w: Option<bool>)
    requires i < |q|
    ensures Count(q, a, w) == Count(RemoveAt(q, i), a, w) + One(q[i], a, w)
  {
    if i == 0 {
      assert RemoveAt(q, 0) == q[1..];
    } else {
      assert RemoveAt(q, i)[1..] == RemoveAt(q[1..], i - 1);
      CountRemove(q[1..], i - 1, a, w);
    }
  }

  lemma {:induction false} TotalUpdate(qs: seq<seq<Packet>>, k: nat, q: seq<Packet>, a: nat, w: Option<bool>)
    requires k < |qs|
    ensures Total(qs[k := q], a, w) + Count(qs[k], a, w) == Total(qs, a, w) + Count(q, a, w)
  {
    if k == 0 {
      assert qs[0 := q][1..] == qs[1..];
    } else {
      assert qs[k := q][1..] == qs[1..][k - 1 := q];
      TotalUpdate(qs[1..], k - 1, q, a, w);
    }
  }

  lemma TotalPush(qs: seq<seq<Packet>>, k: nat, p: Packet, a: nat, w: Option<bool>)
    requires k < |qs|
    ensures Total(qs[k := qs[k] + [p]], a, w) == Total(qs, a, w) + One(p, a, w)
  {
    TotalUpdate(qs, k, qs[k] + [p], a, w);
    CountLast(qs[k], p, a, w);
  }

  lemma TotalPop(qs: seq<seq<Packet>>, k: nat, a: nat, w: Option<bool>)
    requires k < |qs| && qs[k] != []
    ensures Total(qs, a, w) == Total(qs[k := qs[k][1..]], a, w) + One(qs[k][0], a, w)
  {
    TotalUpdate(qs, k, qs[k][1..], a, w);
  }

  /** Moving the front packet of one queue to another one keeps the sum. */
  lemma MoveKeeps(qs: seq<seq<Packet>>, k: nat, rs: seq<seq<Packet>>, j: nat, p: Packet, a: nat, w: Option<bool>)
    requires k < |qs| && qs[k] != [] && j < |rs|
    requires p.addr == qs[k][0].addr && p.isWrite == qs[k][0].isWrite
    ensures Total(qs[k := qs[k][1..]], a, w) + Total(rs[j := rs[j] + [p]], a, w) == Total(qs, a, w) + Total(rs, a, w)
  {
    TotalPop(qs, k, a, w);
    TotalPush(rs, j, p, a, w);
  }

  lemma {:induction false} CountFound(q: seq<Packet>, a: nat)
    ensures Count(q, a, None) > 0 <==> FindAddr(q, a).Some?
  {
    if q != [] {
      CountFound(q[1..], a);
    }
  }

  // ---------------------------------------------------------------- the invariant

  /** Every inserted request has exactly one response: in the lookup table, on its way back, or
      delivered to the processor. */
  ghost predicate Answered(s: Xbar, a: nat, w: Option<bool>) {
    Count(s.inserted, a, w) == Count(s.lookup, a, w) + Total(s.quadResp, a, w) + Total(s.linkResp, a, w) + Count(s.callbacks, a, w)
  }

  /** The lookup table holds one entry per request that is still on its way in or in a vault. */
  ghost predicate Looked(s: Xbar, a: nat) {
    Count(s.lookup, a, None) == Total(s.linkReq, a, None) + Total(s.quadReq, a, None) + s.vaults[a]
  }

  ghost predicate Balanced(s: Xbar, a: nat, w: Option<bool>) {
    Answered(s, a, w) && Looked(s, a)
  }

  lemma InsertBalances(s: Xbar, req: Packet, respFlits: int, a: nat, w: Option<bool>)
    requires Shape(s) && Balanced(s, a, w)
    ensures Balanced(Insert(s, req, respFlits), a, w)
  {
    var r := FindLink(s.linkReq, s.depth, s.nextLink, |s.linkReq|);
    if r.Some? {
      var p := req.(link := r.value);
      var resp := p.(flits := respFlits, exit := 0);
      CountLast(s.inserted, p, a, w);
      CountLast(s.lookup, resp, a, w);
      CountLast(s.lookup, resp, a, None);
      TotalPush(s.linkReq, r.value, p, a, None);
    }
  }

  lemma InsertShape(s: Xbar, req: Packet, respFlits: int)
    requires Shape(s) && req.quad < QUADS
    ensures Shape(Insert(s, req, respFlits)) && |Insert(s, req, respFlits).linkReq| == |s.linkReq|
  {
  }

  lemma {:induction false} QuadsToVaultsBalance(s: Xbar, accepts: seq<bool>, n: nat, a: nat, w: Option<bool>)
    requires Shape(s) && |accepts| == QUADS && n <= QUADS && Balanced(s, a, w)
    ensures Balanced(QuadsToVaults(s, accepts, n), a, w)
  {
    if n > 0 {
      QuadsToVaultsBalance(s, accepts, n - 1, a, w);
      QuadToVaultBalances(QuadsToVaults(s, accepts, n - 1), n - 1, accepts[n - 1], a, w);
    }
  }

  lemma QuadToVaultBalances(s: Xbar, i: nat, accepted: bool, a: nat, w: Option<bool>)
    requires Shape(s) && i < QUADS && Balanced(s, a, w)
    ensures Balanced(QuadToVault(s, i, accepted), a, w)
  {
    if s.quadReq[i] != [] {
      TotalPop(s.quadReq, i, a, None);
      var q := s.quadReq[i][0];
      assert (s.vaults + multiset{q.addr})[a] == s.vaults[a] + One(q, a, None);
    }
  }

  /** Moving packets between the requests, or between the responses, keeps the balance. */
  lemma BalancedByTotals(s: Xbar, r: Xbar, a: nat, w: Option<bool>)
    requires Balanced(s, a, w)
    requires r.lookup == s.lookup && r.vaults == s.vaults && r.inserted == s.inserted && r.callbacks == s.callbacks
    requires Total(r.quadResp, a, w) + Total(r.linkResp, a, w) == Total(s.quadResp, a, w) + Total(s.linkResp, a, w)
    requires Total(r.linkReq, a, None) + Total(r.quadReq, a, None) == Total(s.linkReq, a, None) + Total(s.quadReq, a, None)
    ensures Balanced(r, a, w)
  {
  }

  lemma LinkToQuadBalances(s: Xbar, src: nat, a: nat, w: Option<bool>)
    requires Shape(s) && src < |s.linkReq| && s.linkReq[src] != [] && Balanced(s, a, w)
    ensures Balanced(LinkToQuad(s, src), a, w)
  {
    var p := s.linkReq[src][0];
    assert InRange(|s.linkReq|, s.linkReq[src]);
    MoveKeeps(s.linkReq, src, s.quadReq, p.quad, p.(exit := s.logicClk + p.flits), a, None);
    LinkToQuadFrame(s, src);
    BalancedByTotals(s, LinkToQuad(s, src), a, w);
  }

  lemma LinkToQuadFrame(s: Xbar, src: nat)
    requires Shape(s) && src < |s.linkReq| && s.linkReq[src] != [] && s.linkReq[src][0].quad < QUADS
    ensures var p := s.linkReq[src][0];
            var r := LinkToQuad(s, src);
            && r.lookup == s.lookup && r.vaults == s.vaults && r.quadResp == s.quadResp && r.linkResp == s.linkResp
            && r.inserted == s.inserted && r.callbacks == s.callbacks
            && (|| (r.linkReq == s.linkReq && r.quadReq == s.quadReq)
                || (&& r.linkReq == s.linkReq[src := s.linkReq[src][1..]]
                    && r.quadReq == s.quadReq[p.quad := s.quadReq[p.quad] + [p.(exit := s.logicClk + p.flits)]]))
  {
  }

  lemma {:induction false} LinksToQuadsBalance(s: Xbar, order: seq<nat>, a: nat, w: Option<bool>)
    requires Shape(s) && Orderly(s.linkReq, order) && Balanced(s, a, w)
    ensures Balanced(LinksToQuads(s, order), a, w)
    decreases |order|
  {
    if order != [] {
      assert order[0] in order;
      LinkToQuadBalances(s, order[0], a, w);
      OrderlyTail(s.linkReq, LinkToQuad(s, order[0]).linkReq, order);
      LinksToQuadsBalance(LinkToQuad(s, order[0]), order[1..], a, w);
    }
  }

  lemma RequestsBalance(s: Xbar, accepts: seq<bool>, a: nat, w: Option<bool>)
    requires Shape(s) && |accepts| == QUADS && Balanced(s, a, w)
    ensures Balanced(DrainRequests(s, accepts), a, w)
  {
    QuadsToVaultsBalance(s, accepts, QUADS, a, w);
    var served := QuadsToVaults(s, accepts, QUADS);
    var cooled := served.(quadBusy := Cool(served.quadBusy));
    AgeQueueIsOrderly(cooled.linkAge, cooled.linkReq, cooled.logicClk);
    LinksToQuadsBalance(cooled, BuildAgeQueue(cooled.linkAge, cooled.logicClk), a, w);
  }

  lemma {:induction false} LinksToCpuBalance(s: Xbar, n: nat, a: nat, w: Option<bool>)
    requires Shape(s) && n <= |s.linkResp| && Balanced(s, a, w)
    ensures Balanced(LinksToCpu(s, n), a, w)
  {
    if n > 0 {
      LinksToCpuBalance(s, n - 1, a, w);
      var before := LinksToCpu(s, n - 1);
      if before.linkResp[n - 1] != [] {
        TotalPop(before.linkResp, n - 1, a, w);
        CountLast(before.callbacks, before.linkResp[n - 1][0], a, w);
      }
    }
  }

  lemma QuadToLinkBalances(s: Xbar, src: nat, a: nat, w: Option<bool>)
    requires Shape(s) && src < QUADS && s.quadResp[src] != [] && Balanced(s, a, w)
    ensures Balanced(QuadToLink(s, src), a, w)
  {
    var p := s.quadResp[src][0];
    assert InRange(|s.linkReq|, s.quadResp[src]);
    MoveKeeps(s.quadResp, src, s.linkResp, p.link, p.(exit := s.logicClk + p.flits), a, w);
    QuadToLinkFrame(s, src);
    BalancedByTotals(s, QuadToLink(s, src), a, w);
  }

  lemma QuadToLinkFrame(s: Xbar, src: nat)
    requires Shape(s) && src < QUADS && s.quadResp[src] != [] && s.quadResp[src][0].link < |s.linkResp|
    ensures var p := s.quadResp[src][0];
            var r := QuadToLink(s, src);
            && r.lookup == s.lookup && r.vaults == s.vaults && r.quadReq == s.quadReq && r.linkReq == s.linkReq
            && r.inserted == s.inserted && r.callbacks == s.callbacks
            && (|| (r.quadResp == s.quadResp && r.linkResp == s.linkResp)
                || (&& r.quadResp == s.quadResp[src := s.quadResp[src][1..]]
                    && r.linkResp == s.linkResp[p.link := s.linkResp[p.link] + [p.(exit := s.logicClk + p.flits)]]))
  {
  }

  lemma {:induction false} QuadsToLinksBalance(s: Xbar, order: seq<nat>, a: nat, w: Option<bool>)
    requires Shape(s) && Orderly(s.quadResp, order) && Balanced(s, a, w)
    ensures Balanced(QuadsToLinks(s, order), a, w)
    decreases |order|
  {
    if order != [] {
      assert order[0] in order;
      QuadToLinkBalances(s, order[0], a, w);
      OrderlyTail(s.quadResp, QuadToLink(s, order[0]).quadResp, order);
      QuadsToLinksBalance(QuadToLink(s, order[0]), order[1..], a, w);
    }
  }

  lemma ResponsesBalance(s: Xbar, a: nat, w: Option<bool>)
    requires Shape(s) && Balanced(s, a, w)
    ensures Balanced(DrainResponses(s), a, w)
  {
    LinksToCpuBalance(s, |s.linkResp|, a, w);
    var served := LinksToCpu(s, |s.linkResp|);
    var cooled := served.(linkBusy := Cool(served.linkBusy));
    AgeQueueIsOrderly(cooled.quadAge, cooled.quadResp, cooled.logicClk);
    QuadsToLinksBalance(cooled, BuildAgeQueue(cooled.quadAge, cooled.logicClk), a, w);
  }

  lemma CallbackBalances(s: Xbar, addr: nat, a: nat, w: Option<bool>)
    requires Shape(s) && FindAddr(s.lookup, addr).Some? && addr in s.vaults && Balanced(s, a, w)
    ensures Balanced(VaultCallback(s, addr), a, w)
  {
    var i := FindAddr(s.lookup, addr).value;
    CountRemove(s.lookup, i, a, w);
    CountRemove(s.lookup, i, a, None);
    TotalPush(s.quadResp, s.lookup[i].quad, s.lookup[i], a, w);
  }

  // ---------------------------------------------------------------- all behaviours

  datatype Event =
    | Inserting(req: Packet, respFlits: int)
    | Requests(accepts: seq<bool>)
    | Responses
    | Reporting(addr: nat)
    | LogicCycle

  /** A vault reports only transactions it has accepted, each once. */
  predicate Enabled(s: Xbar, e: Event) {
    match e
    case Inserting(req, _) => req.quad < QUADS
    case Requests(accepts) => |accepts| == QUADS
    case Responses => true
    case Reporting(addr) => addr in s.vaults
    case LogicCycle => true
  }

  /** `None`: the source dereferences the end of the lookup table. */
  function Step(s: Xbar, e: Event): Option<Xbar>
    requires Shape(s) && Enabled(s, e)
  {
    match e
    case Inserting(req, flits) => Some(Insert(s, req, flits))
    case Requests(accepts) => Some(DrainRequests(s, accepts))
    case Responses => Some(DrainResponses(s))
    case Reporting(addr) => if FindAddr(s.lookup, addr).None? then None else Some(VaultCallback(s, addr))
    case LogicCycle => Some(s.(logicClk := s.logicClk + 1))
  }

  ghost predicate Follows(s: Xbar, e: Event, s': Xbar) {
    Shape(s) && Enabled(s, e) && Step(s, e) == Some(s')
  }

  ghost predicate FollowsAt(states: seq<Xbar>, events: seq<Event>, i: nat)
    requires i < |events| && i + 1 < |states|
  {
    Follows(states[i], events[i], states[i + 1])
  }

  ghost predicate Behaviour(links: nat, depth: nat, states: seq<Xbar>, events: seq<Event>) {
    && links > 0
    && |states| == |events| + 1
    && states[0] == InitialXbar(links, depth)
    && forall i :: 0 <= i < |events| ==> FollowsAt(states, events, i)
  }

  ghost predicate Inv(s: Xbar) {
    Shape(s) && forall a: nat, w :: Balanced(s, a, w)
  }

  lemma {:induction false} TotalInitial(n: nat, a: nat, w: Option<bool>)
    ensures Total(seq<seq<Packet>>(n, _ => []), a, w) == 0
  {
    if n > 0 {
      assert seq<seq<Packet>>(n, _ => [])[1..] == seq<seq<Packet>>(n - 1, _ => []);
      TotalInitial(n - 1, a, w);
    }
  }

  lemma InitialInv(links: nat, depth: nat)
    requires links > 0
    ensures Inv(InitialXbar(links, depth))
  {
    forall a: nat, w
      ensures Balanced(InitialXbar(links, depth), a, w)
    {
      TotalInitial(links, a, w);
      TotalInitial(QUADS, a, w);
      TotalInitial(links, a, None);
      TotalInitial(QUADS, a, None);
    }
  }

  lemma StepBalances(s: Xbar, e: Event, a: nat, w: Option<bool>)
    requires Shape(s) && Enabled(s, e) && Balanced(s, a, w) && Step(s, e).Some?
    ensures Balanced(Step(s, e).value, a, w)
  {
    match e {
      case Inserting(req, flits) => InsertBalances(s, req, flits, a, w);
      case Requests(accepts) => RequestsBalance(s, accepts, a, w);
      case Responses => ResponsesBalance(s, a, w);
      case Reporting(addr) => CallbackBalances(s, addr, a, w);
      case LogicCycle =>
    }
  }

  /** Every enabled event is defined in a state that meets the invariant, and keeps it. */
  lemma StepKeepsInv(s: Xbar, e: Event)
    requires Inv(s) && Enabled(s, e)
    ensures Step(s, e).Some? && Inv(Step(s, e).value)
  {
    if e.Reporting? {
      assert Balanced(s, e.addr, None);
      CountFound(s.lookup, e.addr);
    }
    if e.Inserting? {
      InsertShape(s, e.req, e.respFlits);
    }
    forall a: nat, w
      ensures Balanced(Step(s, e).value, a, w)
    {
      assert Balanced(s, a, w);
      StepBalances(s, e, a, w);
    }
  }

  lemma {:induction false} BehaviourKeepsInv(links: nat, depth: nat, states: seq<Xbar>, events: seq<Event>, n: nat)
    requires Behaviour(links, depth, states, events) && n < |states|
    ensures Inv(states[n])
  {
    if n == 0 {
      InitialInv(links, depth);
    } else {
      var m := n - 1;
      BehaviourKeepsInv(links, depth, states, events, m);
      assert FollowsAt(states, events, m);
      StepKeepsInv(states[m], events[m]);
    }
  }

  /** VaultCallback never misses its lookup, and no front() is taken of an empty queue: in every
      reachable state every event that can happen is defined, and the age queues name exactly
      the links and quads with something to send. */
  lemma NoUndefinedStep(links: nat, depth: nat, states: seq<Xbar>, events: seq<Event>, n: nat, e: Event)
    requires Behaviour(links, depth, states, events) && n < |states|
    requires Enabled(states[n], e)
    ensures Shape(states[n]) && Step(states[n], e).Some?
    ensures forall x: nat :: x in BuildAgeQueue(states[n].linkAge, states[n].logicClk) <==> x < |states[n].linkReq| && states[n].linkReq[x] != []
    ensures forall x: nat :: x in BuildAgeQueue(states[n].quadAge, states[n].logicClk) <==> x < QUADS && states[n].quadResp[x] != []
  {
    BehaviourKeepsInv(links, depth, states, events, n);
    StepKeepsInv(states[n], e);
    AgeQueueExact(states[n].linkAge, states[n].logicClk);
    AgeQueueExact(states[n].quadAge, states[n].logicClk);
  }

  /** Callbacks never exceed insertions of the same address and direction, and the difference is
      exactly what is still in the network. */
  lemma OneCallbackPerRequest(links: nat, depth: nat, states: seq<Xbar>, events: seq<Event>, n: nat, a: nat, isWrite: bool)
    requires Behaviour(links, depth, states, events) && n < |states|
    ensures var s := states[n];
            var w := Some(isWrite);
            Count(s.inserted, a, w) == Count(s.callbacks, a, w) + Count(s.lookup, a, w) + Total(s.quadResp, a, w) + Total(s.linkResp, a, w)
  {
    BehaviourKeepsInv(links, depth, states, events, n);
    assert Balanced(states[n], a, Some(isWrite));
  }

  /** Nothing waits on any stage of the network. */
  ghost predicate Quiescent(s: Xbar) {
    && (forall k :: 0 <= k < |s.linkReq| ==> s.linkReq[k] == [])
    && (forall k :: 0 <= k < |s.quadReq| ==> s.quadReq[k] == [])
    && s.vaults == multiset{}
    && (forall k :: 0 <= k < |s.quadResp| ==> s.quadResp[k] == [])
    && (forall k :: 0 <= k < |s.linkResp| ==> s.linkResp[k] == [])
  }

  lemma {:induction false} TotalEmpty(qs: seq<seq<Packet>>, a: nat, w: Option<bool>)
    requires forall k :: 0 <= k < |qs| ==> qs[k] == []
    ensures Total(qs, a, w) == 0
  {
    if qs != [] {
      TotalEmpty(qs[1..], a, w);
    }
  }

  /** When the network is empty, every request has had exactly one callback with its address and
      direction. */
  lemma QuiescentIsComplete(links: nat, depth: nat, states: seq<Xbar>, events: seq<Event>, n: nat, a: nat, isWrite: bool)
    requires Behaviour(links, depth, states, events) && n < |states| && Quiescent(states[n])
    ensures Count(states[n].callbacks, a, Some(isWrite)) == Count(states[n].inserted, a, Some(isWrite))
  {
    BehaviourKeepsInv(links, depth, states, events, n);
    var s := states[n];
    assert Balanced(s, a, Some(isWrite));
    TotalEmpty(s.linkReq, a, None);
    TotalEmpty(s.quadReq, a, None);
    TotalEmpty(s.quadResp, a, Some(isWrite));
    TotalEmpty(s.linkResp, a, Some(isWrite));
    FewerThanAll(s.lookup, a, Some(isWrite));
  }

  lemma {:induction false} FewerThanAll(q: seq<Packet>, a: nat, w: Option<bool>)
    ensures Count(q, a, w) <= Count(q, a, None)
  {
    if q != [] {
      FewerThanAll(q[1..], a, w);
    }
  }

  // ---------------------------------------------------------------- acceptance

  /** WillAcceptTransaction: some link has room. */
  predicate WillAccept(s: Xbar) {
    exists k :: 0 <= k < |s.linkReq| && |s.linkReq[k]| < s.depth
  }

  lemma {:induction false} FindLinkTries(s: Xbar, link: nat, n: nat, k: nat)
    requires link < |s.linkReq| && k < n
    requires FindLink(s.linkReq, s.depth, link, n).None?
    ensures |s.linkReq[Visit(k, link, |s.linkReq|)]| >= s.depth
    decreases n
  {
    var m := |s.linkReq|;
    if k == 0 {
      Digits(0, link, m);
    } else {
      FindLinkTries(s, (link + 1) % m, n - 1, k - 1);
      VisitNext(k - 1, link, m);
    }
  }

  lemma VisitNext(k: nat, link: nat, m: nat)
    requires link < m
    ensures Visit(k, (link + 1) % m, m) == Visit(k + 1, link, m)
  {
    if link + 1 < m {
      Digits(0, link + 1, m);
    } else {
      Digits(1, 0, m);
      var x := k + 1 + link;
      assert x == k + m;
      assert k == (k / m) * m + k % m;
      Distribute(k / m, 1, m);
      Digits(k / m + 1, k % m, m);
    }
  }

  /** A request is inserted exactly when some link has room. */
  lemma InsertIffRoom(s: Xbar, req: Packet, respFlits: int)
    requires Shape(s)
    ensures |Insert(s, req, respFlits).inserted| == |s.inserted| + (if WillAccept(s) then 1 else 0)
  {
    var m := |s.linkReq|;
    if FindLink(s.linkReq, s.depth, s.nextLink, m).None? {
      forall k | 0 <= k < m
        ensures |s.linkReq[k]| >= s.depth
      {
        var i := RotationCovers(k, s.nextLink, m);
        FindLinkTries(s, s.nextLink, m, i);
      }
    }
  }
}
