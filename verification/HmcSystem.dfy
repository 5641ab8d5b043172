/** The crossbar above its vault controllers (hmc.cc): each vault is a channel controller. The
    crossbar's theorems assume that a vault reports only what it has accepted, each once; the
    controllers see to it. */
module HmcSystem {
  import opened Basics
  import opened DramTypes
  import opened RefreshUnit
  import opened Controller
  import opened Runs
  import opened MemorySystem
  import Hmc
  import HmcRuns

  datatype Vaulted = Vaulted(xbar: Hmc.Xbar, vaults: seq<State>)

  function Start(cfg: Config, links: nat, depth: nat, vaults: nat): Vaulted {
    Vaulted(Hmc.InitialXbar(links, depth), seq(vaults, _ => InitialState(cfg)))
  }

  /** The vault of an address is its channel. */
  ghost predicate Routed(cfg: Config, vaults: nat) {
    forall a: nat :: 0 <= cfg.decode(a).channel < vaults
  }

  function VaultOf(cfg: Config, addr: nat): int {
    cfg.decode(addr).channel
  }

  /** What crossbar and controllers do: an insertion, a drain of responses or a logic cycle, which
      concern the crossbar alone; a drain of requests, where `values` are the data of the requests
      that the vaults take; the return of a finished transaction; the tick of a vault. */
  datatype Event =
    | Crossing(event: HmcRuns.Event)
    | Serve(values: seq<int>)
    | VaultReturn(vault: nat, clk: nat)
    | VaultTick(vault: nat)

  predicate Enabled(s: Vaulted, e: Event) {
    match e
    case Crossing(event) => (event.Inserting? || event.Responses? || event.LogicCycle?) && HmcRuns.Enabled(s.xbar, event)
    case Serve(values) => |values| == Hmc.QUADS
    case VaultReturn(vault, clk) => vault < |s.vaults| && FirstDone(s.vaults[vault].returnQ, clk, 0).Some?
    case VaultTick(vault) => vault < |s.vaults|
  }

  // ---------------------------------------------------------------- draining requests

  ghost predicate Ready(cfg: Config, s: Vaulted) {
    Hmc.Shape(s.xbar) && Routed(cfg, |s.vaults|)
  }

  /** The controller of the quad's oldest request would accept it. */
  predicate Accepts(cfg: Config, s: Vaulted, i: nat)
    requires Ready(cfg, s) && i < Hmc.QUADS
  {
    var q := s.xbar.quadReq[i];
    q != [] && WillAcceptTransaction(cfg, s.vaults[VaultOf(cfg, q[0].addr)], q[0].isWrite)
  }

  /** The packet leaves its quad for its vault. */
  predicate Leaves(cfg: Config, s: Vaulted, i: nat)
    requires Ready(cfg, s) && i < Hmc.QUADS
  {
    && Accepts(cfg, s, i)
    && |s.xbar.quadResp[i]| < s.xbar.depth && s.xbar.quadReq[i][0].exit <= s.xbar.logicClk
  }

  function ServeQuad(cfg: Config, s: Vaulted, i: nat, value: int): (r: Vaulted)
    requires Ready(cfg, s) && i < Hmc.QUADS
    ensures Ready(cfg, r) && |r.vaults| == |s.vaults|
  {
    var xbar := Hmc.QuadToVault(s.xbar, i, Accepts(cfg, s, i));
    if Leaves(cfg, s, i) then
      var p := s.xbar.quadReq[i][0];
      var v := VaultOf(cfg, p.addr);
      Vaulted(xbar, s.vaults[v := AddTransaction(cfg, s.vaults[v], Request(p.addr, p.isWrite, value))])
    else Vaulted(xbar, s.vaults)
  }

  /** The loop over the quads: each acceptance changes a controller before the next quad asks. */
  function ServeQuads(cfg: Config, s: Vaulted, values: seq<int>, n: nat): (r: Vaulted)
    requires Ready(cfg, s) && n <= Hmc.QUADS == |values|
    ensures Ready(cfg, r) && |r.vaults| == |s.vaults|
  {
    if n == 0 then s else ServeQuad(cfg, ServeQuads(cfg, s, values, n - 1), n - 1, values[n - 1])
  }

  /** The answers that the quads get. */
  function Answers(cfg: Config, s: Vaulted, values: seq<int>): (r: seq<bool>)
    requires Ready(cfg, s) && |values| == Hmc.QUADS
    ensures |r| == Hmc.QUADS
    ensures forall k: nat :: k < Hmc.QUADS ==> r[k] == Accepts(cfg, ServeQuads(cfg, s, values, k), k)
  {
    seq(Hmc.QUADS, k requires 0 <= k < Hmc.QUADS => Accepts(cfg, ServeQuads(cfg, s, values, k), k))
  }

  /** The crossbar sees the loop as one with these answers. */
  lemma {:induction false} ServeIsDrain(cfg: Config, s: Vaulted, values: seq<int>, n: nat)
    requires Ready(cfg, s) && n <= Hmc.QUADS == |values|
    ensures ServeQuads(cfg, s, values, n).xbar == Hmc.QuadsToVaults(s.xbar, Answers(cfg, s, values), n)
    decreases n
  {
    if n > 0 {
      ServeIsDrain(cfg, s, values, n - 1);
    }
  }

  // ---------------------------------------------------------------- steps

  /** The event as the crossbar sees it; a tick passes it by. */
  function Seen(cfg: Config, s: Vaulted, e: Event): HmcRuns.Event
    requires Ready(cfg, s) && Enabled(s, e) && !e.VaultTick?
  {
    match e
    case Crossing(event) => event
    case Serve(values) => HmcRuns.Requests(Answers(cfg, s, values))
    case VaultReturn(vault, clk) =>
      var q := s.vaults[vault].returnQ;
      HmcRuns.Reporting(q[FirstDone(q, clk, 0).value].addr)
  }

  /** What the event does to the crossbar, whether or not it knows of a returned transaction; `None`
      is an undefined lookup. */
  function Told(cfg: Config, s: Vaulted, e: Event): Option<Hmc.Xbar>
    requires Ready(cfg, s) && Enabled(s, e)
  {
    match e
    case Crossing(event) => HmcRuns.Step(s.xbar, event)
    case Serve(values) => Some(Hmc.DrainRequests(s.xbar, Answers(cfg, s, values)))
    case VaultReturn(vault, clk) =>
      var q := s.vaults[vault].returnQ;
      var addr := q[FirstDone(q, clk, 0).value].addr;
      if Hmc.FindAddr(s.xbar.lookup, addr).None? then None else Some(Hmc.VaultCallback(s.xbar, addr))
    case VaultTick(_) => Some(s.xbar)
  }

  /** What the event does to the controllers. */
  ghost predicate Moves(cfg: Config, s: Vaulted, e: Event, vaults: seq<State>)
    requires Ready(cfg, s) && Enabled(s, e)
  {
    match e
    case Crossing(_) => vaults == s.vaults
    case Serve(values) => vaults == ServeQuads(cfg, s, values, Hmc.QUADS).vaults
    case VaultReturn(vault, clk) => vaults == s.vaults[vault := ReturnDone(s.vaults[vault], clk)]
    case VaultTick(vault) =>
      && Shaped(cfg, s.vaults[vault])
      && ClockTick(cfg, s.vaults[vault]).Ok?
      && vaults == s.vaults[vault := ClockTick(cfg, s.vaults[vault]).value]
  }

  ghost predicate Follows(cfg: Config, s: Vaulted, e: Event, s': Vaulted) {
    && Ready(cfg, s) && Enabled(s, e)
    && Told(cfg, s, e) == Some(s'.xbar)
    && Moves(cfg, s, e, s'.vaults)
  }

  // ---------------------------------------------------------------- the invariant

  /** The transactions of an address that the vaults have accepted and not reported. */
  function Held(vaults: seq<State>, a: nat): nat {
    OutstandingIn(vaults, Bridge.Key(a, false)) + OutstandingIn(vaults, Bridge.Key(a, true))
  }

  ghost predicate Accounts(s: Vaulted, a: nat) {
    s.xbar.vaults[a] == Held(s.vaults, a)
  }

  /** What the crossbar has in its vaults is exactly what the controllers have outstanding. */
  ghost predicate Inv(cfg: Config, s: Vaulted) {
    && Routed(cfg, |s.vaults|)
    && HmcRuns.Inv(s.xbar)
    && AllOk(cfg, s.vaults)
    && forall a: nat :: Accounts(s, a)
  }

  lemma HeldUpdate(vaults: seq<State>, v: nat, moved: State, a: nat)
    requires v < |vaults|
    ensures Held(vaults[v := moved], a) + Held([vaults[v]], a) == Held(vaults, a) + Held([moved], a)
  {
    HeldByOne(vaults[v], a);
    HeldByOne(moved, a);
    OutstandingUpdate(vaults, v, moved, Bridge.Key(a, false));
    OutstandingUpdate(vaults, v, moved, Bridge.Key(a, true));
  }

  lemma HeldByOne(s: State, a: nat)
    ensures Held([s], a) == Outstanding(s, Bridge.Key(a, false)) + Outstanding(s, Bridge.Key(a, true))
  {
    assert [s][1..] == [];
    OnlyOne(s, Bridge.Key(a, false));
    OnlyOne(s, Bridge.Key(a, true));
  }

  lemma OnlyOne(s: State, key: Bridge.Key)
    ensures OutstandingIn([s], key) == Outstanding(s, key)
  {
    assert [s][1..] == [];
  }

  lemma HeldAfterAccepting(cfg: Config, s: State, req: Request, a: nat)
    ensures Held([AddTransaction(cfg, s, req)], a) == Held([s], a) + if req.addr == a then 1 else 0
  {
    HeldByOne(s, a);
    HeldByOne(AddTransaction(cfg, s, req), a);
    AcceptingAddsOne(cfg, s, req, Bridge.Key(a, false));
    AcceptingAddsOne(cfg, s, req, Bridge.Key(a, true));
  }

  lemma HeldAfterReturning(s: State, clk: nat, a: nat)
    requires FirstDone(s.returnQ, clk, 0).Some?
    ensures Held([s], a) == Held([ReturnDone(s, clk)], a) + if s.returnQ[FirstDone(s.returnQ, clk, 0).value].addr == a then 1 else 0
  {
    HeldByOne(s, a);
    HeldByOne(ReturnDone(s, clk), a);
    ReturningRemovesOne(s, clk, Bridge.Key(a, false));
    ReturningRemovesOne(s, clk, Bridge.Key(a, true));
  }

  lemma HeldAfterTick(cfg: Config, s: State, a: nat)
    requires Shaped(cfg, s) && ClockTick(cfg, s).Ok?
    ensures Held([ClockTick(cfg, s).value], a) == Held([s], a)
  {
    HeldByOne(s, a);
    HeldByOne(ClockTick(cfg, s).value, a);
    TickKeepsOutstanding(cfg, s, Bridge.Key(a, false));
    TickKeepsOutstanding(cfg, s, Bridge.Key(a, true));
  }

  lemma ServeQuadAccounts(cfg: Config, s: Vaulted, i: nat, value: int, a: nat)
    requires Ready(cfg, s) && i < Hmc.QUADS && Accounts(s, a)
    ensures Accounts(ServeQuad(cfg, s, i, value), a)
  {
    if Leaves(cfg, s, i) {
      var p := s.xbar.quadReq[i][0];
      var v := VaultOf(cfg, p.addr);
      var req := Request(p.addr, p.isWrite, value);
      HeldAfterAccepting(cfg, s.vaults[v], req, a);
      HeldUpdate(s.vaults, v, AddTransaction(cfg, s.vaults[v], req), a);
    }
  }

  lemma {:induction false} ServeQuadsAccount(cfg: Config, s: Vaulted, values: seq<int>, n: nat, a: nat)
    requires Ready(cfg, s) && n <= Hmc.QUADS == |values| && Accounts(s, a)
    ensures Accounts(ServeQuads(cfg, s, values, n), a)
  {
    if n > 0 {
      ServeQuadsAccount(cfg, s, values, n - 1, a);
      ServeQuadAccounts(cfg, ServeQuads(cfg, s, values, n - 1), n - 1, values[n - 1], a);
    }
  }

  lemma ServeQuadKeepsVaults(cfg: Config, s: Vaulted, i: nat, value: int)
    requires Ready(cfg, s) && i < Hmc.QUADS && AllOk(cfg, s.vaults)
    ensures AllOk(cfg, ServeQuad(cfg, s, i, value).vaults)
  {
    if Leaves(cfg, s, i) {
      var p := s.xbar.quadReq[i][0];
      var v := VaultOf(cfg, p.addr);
      SubmitKeeps(cfg, s.vaults[v], Request(p.addr, p.isWrite, value));
      ReplaceKeepsOk(cfg, s.vaults, v, AddTransaction(cfg, s.vaults[v], Request(p.addr, p.isWrite, value)));
    }
  }

  lemma {:induction false} ServeQuadsKeepVaults(cfg: Config, s: Vaulted, values: seq<int>, n: nat)
    requires Ready(cfg, s) && n <= Hmc.QUADS == |values| && AllOk(cfg, s.vaults)
    ensures AllOk(cfg, ServeQuads(cfg, s, values, n).vaults)
  {
    if n > 0 {
      ServeQuadsKeepVaults(cfg, s, values, n - 1);
      ServeQuadKeepsVaults(cfg, ServeQuads(cfg, s, values, n - 1), n - 1, values[n - 1]);
    }
  }

  // ---------------------------------------------------------------- what leaves the vaults alone

  lemma {:induction false} LinksKeepVaults(x: Hmc.Xbar, order: seq<nat>)
    requires Hmc.Shape(x) && Hmc.Orderly(x.linkReq, order)
    ensures Hmc.LinksToQuads(x, order).vaults == x.vaults
    decreases |order|
  {
    if order != [] {
      assert order[0] in order;
      var next := Hmc.LinkToQuad(x, order[0]);
      Hmc.OrderlyTail(x.linkReq, next.linkReq, order);
      LinksKeepVaults(next, order[1..]);
    }
  }

  lemma DrainKeepsVaults(x: Hmc.Xbar, accepts: seq<bool>)
    requires Hmc.Shape(x) && |accepts| == Hmc.QUADS
    ensures Hmc.DrainRequests(x, accepts).vaults == Hmc.QuadsToVaults(x, accepts, Hmc.QUADS).vaults
  {
    var served := Hmc.QuadsToVaults(x, accepts, Hmc.QUADS);
    var cooled := served.(quadBusy := Hmc.Cool(served.quadBusy));
    Hmc.AgeQueueIsOrderly(cooled.linkAge, cooled.linkReq, cooled.logicClk);
    LinksKeepVaults(cooled, Hmc.BuildAgeQueue(cooled.linkAge, cooled.logicClk));
  }

  lemma {:induction false} CpuKeepsVaults(x: Hmc.Xbar, n: nat)
    requires Hmc.Shape(x) && n <= |x.linkResp|
    ensures Hmc.LinksToCpu(x, n).vaults == x.vaults
  {
    if n > 0 {
      CpuKeepsVaults(x, n - 1);
    }
  }

  lemma {:induction false} QuadsKeepVaults(x: Hmc.Xbar, order: seq<nat>)
    requires Hmc.Shape(x) && Hmc.Orderly(x.quadResp, order)
    ensures Hmc.QuadsToLinks(x, order).vaults == x.vaults
    decreases |order|
  {
    if order != [] {
      assert order[0] in order;
      var next := Hmc.QuadToLink(x, order[0]);
      Hmc.OrderlyTail(x.quadResp, next.quadResp, order);
      QuadsKeepVaults(next, order[1..]);
    }
  }

  lemma ResponsesKeepVaults(x: Hmc.Xbar)
    requires Hmc.Shape(x)
    ensures Hmc.DrainResponses(x).vaults == x.vaults
  {
    CpuKeepsVaults(x, |x.linkResp|);
    var served := Hmc.LinksToCpu(x, |x.linkResp|);
    var cooled := served.(linkBusy := Hmc.Cool(served.linkBusy));
    Hmc.AgeQueueIsOrderly(cooled.quadAge, cooled.quadResp, cooled.logicClk);
    QuadsKeepVaults(cooled, Hmc.BuildAgeQueue(cooled.quadAge, cooled.logicClk));
  }

  lemma AloneKeepsVaults(x: Hmc.Xbar, e: HmcRuns.Event)
    requires Hmc.Shape(x) && HmcRuns.Enabled(x, e) && (e.Inserting? || e.Responses? || e.LogicCycle?)
    ensures HmcRuns.Step(x, e).Some? && HmcRuns.Step(x, e).value.vaults == x.vaults
  {
    if e.Responses? {
      ResponsesKeepVaults(x);
    }
  }

  // ---------------------------------------------------------------- steps keep the invariant

  /** What a vault returns is in the crossbar's vaults, so that its lookup is defined. */
  lemma ReturnedIsHeld(cfg: Config, s: Vaulted, vault: nat, clk: nat)
    requires Inv(cfg, s) && Enabled(s, VaultReturn(vault, clk))
    ensures HmcRuns.Enabled(s.xbar, Seen(cfg, s, VaultReturn(vault, clk)))
  {
    var ctrl := s.vaults[vault];
    var t := ctrl.returnQ[FirstDone(ctrl.returnQ, clk, 0).value];
    ReturningRemovesOne(ctrl, clk, KeyOf(t));
    OneOfMany(s.vaults, vault, KeyOf(t));
    assert Accounts(s, t.addr);
  }

  /** The crossbar's theorems allow every step of the system that concerns it, and it is defined. */
  lemma CrossbarFollows(cfg: Config, s: Vaulted, e: Event)
    requires Inv(cfg, s) && Enabled(s, e) && !e.VaultTick?
    ensures HmcRuns.Enabled(s.xbar, Seen(cfg, s, e))
    ensures Told(cfg, s, e) == HmcRuns.Step(s.xbar, Seen(cfg, s, e)) && Told(cfg, s, e).Some?
    ensures HmcRuns.Inv(Told(cfg, s, e).value)
  {
    if e.VaultReturn? {
      ReturnedIsHeld(cfg, s, e.vault, e.clk);
    }
    HmcRuns.StepKeepsInv(s.xbar, Seen(cfg, s, e));
  }

  lemma ServeAccounts(cfg: Config, s: Vaulted, values: seq<int>, s': Vaulted, a: nat)
    requires Follows(cfg, s, Serve(values), s') && Accounts(s, a)
    ensures Accounts(s', a)
  {
    ServeQuadsAccount(cfg, s, values, Hmc.QUADS, a);
    ServeIsDrain(cfg, s, values, Hmc.QUADS);
    DrainKeepsVaults(s.xbar, Answers(cfg, s, values));
  }

  lemma CallbackTakesOne(cfg: Config, s: Vaulted, vault: nat, clk: nat, a: nat)
    requires Ready(cfg, s) && Enabled(s, VaultReturn(vault, clk)) && Told(cfg, s, VaultReturn(vault, clk)).Some?
    requires HmcRuns.Enabled(s.xbar, Seen(cfg, s, VaultReturn(vault, clk)))
    ensures var q := s.vaults[vault].returnQ;
            s.xbar.vaults[a] == Told(cfg, s, VaultReturn(vault, clk)).value.vaults[a]
            + if q[FirstDone(q, clk, 0).value].addr == a then 1 else 0
  {
  }

  lemma ReturnAccounts(cfg: Config, s: Vaulted, vault: nat, clk: nat, s': Vaulted, a: nat)
    requires Follows(cfg, s, VaultReturn(vault, clk), s') && Accounts(s, a)
    requires HmcRuns.Enabled(s.xbar, Seen(cfg, s, VaultReturn(vault, clk)))
    ensures Accounts(s', a)
  {
    CallbackTakesOne(cfg, s, vault, clk, a);
    HeldAfterReturning(s.vaults[vault], clk, a);
    HeldUpdate(s.vaults, vault, ReturnDone(s.vaults[vault], clk), a);
  }

  lemma TickAccounts(cfg: Config, s: Vaulted, vault: nat, s': Vaulted, a: nat)
    requires Follows(cfg, s, VaultTick(vault), s') && Accounts(s, a)
    ensures Accounts(s', a)
  {
    HeldAfterTick(cfg, s.vaults[vault], a);
    HeldUpdate(s.vaults, vault, ClockTick(cfg, s.vaults[vault]).value, a);
  }

  lemma StepAccounts(cfg: Config, s: Vaulted, e: Event, s': Vaulted, a: nat)
    requires Follows(cfg, s, e, s') && Accounts(s, a)
    requires e.VaultReturn? ==> HmcRuns.Enabled(s.xbar, Seen(cfg, s, e))
    ensures Accounts(s', a)
  {
    match e {
      case Crossing(event) => AloneKeepsVaults(s.xbar, event);
      case Serve(values) => ServeAccounts(cfg, s, values, s', a);
      case VaultReturn(vault, clk) => ReturnAccounts(cfg, s, vault, clk, s', a);
      case VaultTick(vault) => TickAccounts(cfg, s, vault, s', a);
    }
  }

  lemma StepKeepsVaults(cfg: Config, s: Vaulted, e: Event, s': Vaulted)
    requires AllOk(cfg, s.vaults) && Follows(cfg, s, e, s')
    ensures |s'.vaults| == |s.vaults| && AllOk(cfg, s'.vaults)
  {
    match e {
      case Crossing(_) =>
      case Serve(values) => ServeQuadsKeepVaults(cfg, s, values, Hmc.QUADS);
      case VaultReturn(vault, clk) => ReturnKeepsControllers(cfg, s.vaults, vault, clk);
      case VaultTick(vault) => TickKeepsControllers(cfg, s.vaults, vault);
    }
  }

  lemma StepKeepsInv(cfg: Config, s: Vaulted, e: Event, s': Vaulted)
    requires Inv(cfg, s) && Follows(cfg, s, e, s')
    ensures Inv(cfg, s')
  {
    StepKeepsVaults(cfg, s, e, s');
    if !e.VaultTick? {
      CrossbarFollows(cfg, s, e);
    }
    forall a: nat
      ensures Accounts(s', a)
    {
      assert Accounts(s, a);
      StepAccounts(cfg, s, e, s', a);
    }
  }

  // ---------------------------------------------------------------- all behaviours

  ghost predicate FollowsAt(cfg: Config, states: seq<Vaulted>, events: seq<Event>, i: nat)
    requires i < |events| && i + 1 < |states|
  {
    Follows(cfg, states[i], events[i], states[i + 1])
  }

  ghost predicate Behaviour(cfg: Config, links: nat, depth: nat, vaults: nat, states: seq<Vaulted>, events: seq<Event>) {
    && Configured(cfg) && Routed(cfg, vaults) && links > 0
    && |states| == |events| + 1
    && states[0] == Start(cfg, links, depth, vaults)
    && forall i :: 0 <= i < |events| ==> FollowsAt(cfg, states, events, i)
  }

  lemma {:induction false} StartHoldsNothing(cfg: Config, vaults: nat, key: Bridge.Key)
    ensures OutstandingIn(seq(vaults, _ => InitialState(cfg)), key) == 0
  {
    if vaults > 0 {
      assert seq(vaults, _ => InitialState(cfg))[1..] == seq(vaults - 1, _ => InitialState(cfg));
      StartHoldsNothing(cfg, vaults - 1, key);
    }
  }

  lemma StartKeepsInv(cfg: Config, links: nat, depth: nat, vaults: nat)
    requires Configured(cfg) && Routed(cfg, vaults) && links > 0
    ensures Inv(cfg, Start(cfg, links, depth, vaults))
  {
    Runs.InitialInv(cfg);
    HmcRuns.InitialInv(links, depth);
    forall a: nat
      ensures Accounts(Start(cfg, links, depth, vaults), a)
    {
      StartHoldsNothing(cfg, vaults, Bridge.Key(a, false));
      StartHoldsNothing(cfg, vaults, Bridge.Key(a, true));
    }
  }

  lemma {:induction false} BehaviourKeepsInv(
    cfg: Config, links: nat, depth: nat, vaults: nat, states: seq<Vaulted>, events: seq<Event>, n: nat)
    requires Behaviour(cfg, links, depth, vaults, states, events) && n < |states|
    ensures Inv(cfg, states[n])
    decreases n
  {
    if n == 0 {
      StartKeepsInv(cfg, links, depth, vaults);
    } else {
      BehaviourKeepsInv(cfg, links, depth, vaults, states, events, n - 1);
      InvFollows(cfg, links, depth, vaults, states, events, n);
    }
  }

  lemma InvFollows(cfg: Config, links: nat, depth: nat, vaults: nat, states: seq<Vaulted>, events: seq<Event>, n: nat)
    requires Behaviour(cfg, links, depth, vaults, states, events) && 0 < n < |states|
    requires Inv(cfg, states[n - 1])
    ensures Inv(cfg, states[n])
  {
    assert FollowsAt(cfg, states, events, n - 1);
    StepKeepsInv(cfg, states[n - 1], events[n - 1], states[n]);
  }

  /** Every reachable state of the system has a crossbar that is reachable in a behaviour of the
      crossbar alone: its assumption about reports holds of the controllers. */
  lemma {:induction false} SystemIsCrossbar(
    cfg: Config, links: nat, depth: nat, vaults: nat, states: seq<Vaulted>, events: seq<Event>, n: nat)
    returns (xbars: seq<Hmc.Xbar>, seen: seq<HmcRuns.Event>)
    requires Behaviour(cfg, links, depth, vaults, states, events) && n < |states|
    ensures HmcRuns.Behaviour(links, depth, xbars, seen) && xbars[|seen|] == states[n].xbar
    decreases n
  {
    if n == 0 {
      xbars, seen := [states[0].xbar], [];
    } else {
      xbars, seen := SystemIsCrossbar(cfg, links, depth, vaults, states, events, n - 1);
      BehaviourKeepsInv(cfg, links, depth, vaults, states, events, n - 1);
      xbars, seen := CrossbarStep(cfg, links, depth, vaults, states, events, n, xbars, seen);
    }
  }

  lemma CrossbarStep(
    cfg: Config, links: nat, depth: nat, vaults: nat, states: seq<Vaulted>, events: seq<Event>, n: nat,
    xbars: seq<Hmc.Xbar>, seen: seq<HmcRuns.Event>)
    returns (xbars': seq<Hmc.Xbar>, seen': seq<HmcRuns.Event>)
    requires Behaviour(cfg, links, depth, vaults, states, events) && 0 < n < |states| && Inv(cfg, states[n - 1])
    requires HmcRuns.Behaviour(links, depth, xbars, seen) && xbars[|seen|] == states[n - 1].xbar
    ensures HmcRuns.Behaviour(links, depth, xbars', seen') && xbars'[|seen'|] == states[n].xbar
  {
    var s, e, s' := states[n - 1], events[n - 1], states[n];
    assert FollowsAt(cfg, states, events, n - 1);
    xbars', seen' := xbars, seen;
    if !e.VaultTick? {
      CrossbarFollows(cfg, s, e);
      CrossbarExtends(links, depth, xbars, seen, Seen(cfg, s, e), s'.xbar);
      xbars', seen' := xbars + [s'.xbar], seen + [Seen(cfg, s, e)];
    }
  }

  lemma CrossbarExtends(links: nat, depth: nat, xbars: seq<Hmc.Xbar>, seen: seq<HmcRuns.Event>, e: HmcRuns.Event, x: Hmc.Xbar)
    requires HmcRuns.Behaviour(links, depth, xbars, seen) && HmcRuns.Follows(xbars[|seen|], e, x)
    ensures HmcRuns.Behaviour(links, depth, xbars + [x], seen + [e])
  {
    forall i | 0 <= i < |seen + [e]|
      ensures HmcRuns.FollowsAt(xbars + [x], seen + [e], i)
    {
      if i < |seen| {
        assert HmcRuns.FollowsAt(xbars, seen, i);
      }
    }
  }

  /** No event is ever undefined: a vault's report always finds its entry in the lookup table, and a
      tick succeeds. */
  lemma NothingIsUndefined(
    cfg: Config, links: nat, depth: nat, vaults: nat, states: seq<Vaulted>, events: seq<Event>, n: nat, e: Event)
    requires Behaviour(cfg, links, depth, vaults, states, events) && n < |states| && Enabled(states[n], e)
    ensures Ready(cfg, states[n]) && Told(cfg, states[n], e).Some?
    ensures exists ctrls :: Moves(cfg, states[n], e, ctrls)
  {
    BehaviourKeepsInv(cfg, links, depth, vaults, states, events, n);
    MovesExist(cfg, states[n], e);
    if !e.VaultTick? {
      CrossbarFollows(cfg, states[n], e);
    }
  }

  lemma MovesExist(cfg: Config, s: Vaulted, e: Event)
    requires Inv(cfg, s) && Enabled(s, e)
    ensures exists ctrls :: Moves(cfg, s, e, ctrls)
  {
    match e {
      case Crossing(_) => assert Moves(cfg, s, e, s.vaults);
      case Serve(values) => assert Moves(cfg, s, e, ServeQuads(cfg, s, values, Hmc.QUADS).vaults);
      case VaultReturn(vault, clk) => assert Moves(cfg, s, e, s.vaults[vault := ReturnDone(s.vaults[vault], clk)]);
      case VaultTick(vault) =>
        TickMoves(cfg, s, vault);
    }
  }

  lemma TickMoves(cfg: Config, s: Vaulted, vault: nat)
    requires Ready(cfg, s) && AllOk(cfg, s.vaults) && vault < |s.vaults|
    ensures exists ctrls :: Moves(cfg, s, VaultTick(vault), ctrls)
  {
    TickKeepsControllers(cfg, s.vaults, vault);
    assert Moves(cfg, s, VaultTick(vault), s.vaults[vault := ClockTick(cfg, s.vaults[vault]).value]);
  }

  // ---------------------------------------------------------------- end to end

  /** Nothing waits in the crossbar's queues, and no vault has anything to return or read. */
  ghost predicate Drained(s: Vaulted) {
    && (forall k :: 0 <= k < |s.xbar.linkReq| ==> s.xbar.linkReq[k] == [])
    && (forall k :: 0 <= k < |s.xbar.quadReq| ==> s.xbar.quadReq[k] == [])
    && (forall k :: 0 <= k < |s.xbar.quadResp| ==> s.xbar.quadResp[k] == [])
    && (forall k :: 0 <= k < |s.xbar.linkResp| ==> s.xbar.linkResp[k] == [])
    && (forall v :: 0 <= v < |s.vaults| ==> s.vaults[v].returnQ == [] && s.vaults[v].pendRd == [])
  }

  lemma {:induction false} DrainedHolds(vaults: seq<State>, key: Bridge.Key)
    requires forall v :: 0 <= v < |vaults| ==> vaults[v].returnQ == [] && vaults[v].pendRd == []
    ensures OutstandingIn(vaults, key) == 0
  {
    if vaults != [] {
      DrainedHolds(vaults[1..], key);
    }
  }

  /** When crossbar and vaults are drained, every request has had exactly one callback with its
      address and direction. */
  lemma DrainedIsComplete(
    cfg: Config, links: nat, depth: nat, vaults: nat, states: seq<Vaulted>, events: seq<Event>, n: nat, a: nat, isWrite: bool)
    requires Behaviour(cfg, links, depth, vaults, states, events) && n < |states| && Drained(states[n])
    ensures HmcRuns.Count(states[n].xbar.callbacks, a, Some(isWrite)) == HmcRuns.Count(states[n].xbar.inserted, a, Some(isWrite))
  {
    BehaviourKeepsInv(cfg, links, depth, vaults, states, events, n);
    var s := states[n];
    forall b: nat
      ensures s.xbar.vaults[b] == 0
    {
      assert Accounts(s, b);
      DrainedHolds(s.vaults, Bridge.Key(b, false));
      DrainedHolds(s.vaults, Bridge.Key(b, true));
    }
    assert HmcRuns.Quiescent(s.xbar);
    var xbars, seen := SystemIsCrossbar(cfg, links, depth, vaults, states, events, n);
    HmcRuns.QuiescentIsComplete(links, depth, xbars, seen, |seen|, a, isWrite);
  }
}
