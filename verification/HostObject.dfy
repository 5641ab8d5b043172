/** Host::handle_speculative_trace with its loops: work-item expansion, the counting pass
    and the emission pass onto the pending queue. */
module HostObject {
  import opened Arithmetic
  import opened DraftWork
  import opened DraftStream

  /** The serialised draft tree (SSD) or the proposal sequence (PEARL). A fan-out list of
      2^32 or more entries would wrap the loop counter. */
  method ExpandWork(c: Control) returns (items: seq<Work>)
    requires |c.fanOut| < WORD32
    ensures c.ssd ==> |items| == c.treeSteps * Sum(c.fanOut, |c.fanOut|)
    ensures c.ssd ==> Serialises(c, items)
    ensures !c.ssd ==> |items| == c.proposals
    ensures !c.ssd ==> forall i :: 0 <= i < |items| ==> items[i] == Work((c.kvTokens + i) % WORD32, 0, i, 0)
  {
    items := [];
    if c.ssd {
      for s := 0 to c.treeSteps
        invariant |items| == Position(c, s, 0, 0)
        invariant Placed(c, items)
      {
        items := ExpandStep(c, s, items);
        Distribute(s, 1, Sum(c.fanOut, |c.fanOut|));
      }
      forall s: nat, d: nat, b: nat | Node(c, s, d, b)
        ensures Position(c, s, d, b) < |items| && items[Position(c, s, d, b)] == NodeWork(c, s, d, b)
      {
        PositionInStep(c, s, d, b);
      }
    } else {
      for i := 0 to c.proposals
        invariant |items| == i
        invariant forall j :: 0 <= j < i ==> items[j] == Work((c.kvTokens + j) % WORD32, 0, j, 0)
      {
        items := items + [Work((c.kvTokens + i) % WORD32, 0, i, 0)];
      }
    }
  }

  /** Every node of the draft tree is an item: steps, depths and branches in this order, with a
      context that grows by one token for each step and each depth. */
  ghost predicate Serialises(c: Control, items: seq<Work>)
    requires |c.fanOut| < WORD32
  {
    forall s: nat, d: nat, b: nat :: Node(c, s, d, b) ==>
                                       var k := s * Sum(c.fanOut, |c.fanOut|) + Sum(c.fanOut, d) + b;
                                       k < |items| && items[k] == Work((c.kvTokens + d + s) % WORD32, s, d, b)
  }

  /** Every item so far is the node whose position it holds. */
  ghost predicate Placed(c: Control, items: seq<Work>)
    requires |c.fanOut| < WORD32
  {
    forall s: nat, d: nat, b: nat :: Node(c, s, d, b) && Position(c, s, d, b) < |items| ==>
                                       items[Position(c, s, d, b)] == NodeWork(c, s, d, b)
  }

  lemma PlaceNext(c: Control, items: seq<Work>, s: nat, d: nat, b: nat)
    requires |c.fanOut| < WORD32 && Placed(c, items) && Node(c, s, d, b) && |items| == Position(c, s, d, b)
    ensures Placed(c, items + [NodeWork(c, s, d, b)])
  {
    forall s': nat, d': nat, b': nat | Node(c, s', d', b') && Position(c, s', d', b') == |items|
      ensures s' == s && d' == d && b' == b
    {
      PositionIsInjective(c, s, d, b, s', d', b');
    }
  }

  method ExpandStep(c: Control, s: nat, before: seq<Work>) returns (items: seq<Work>)
    requires |c.fanOut| < WORD32 && s < c.treeSteps
    requires |before| == Position(c, s, 0, 0) && Placed(c, before)
    ensures |items| == Position(c, s, |c.fanOut|, 0) && Placed(c, items)
  {
    items := before;
    for d := 0 to |c.fanOut|
      invariant |items| == Position(c, s, d, 0)
      invariant Placed(c, items)
    {
      for b := 0 to c.fanOut[d]
        invariant |items| == Position(c, s, d, b)
        invariant Placed(c, items)
      {
        PlaceNext(c, items, s, d, b);
        items := items + [NodeWork(c, s, d, b)];
      }
    }
  }

  /** commands_per_tile, in 64 bits. */
  method CommandsPerTile(p: Profile) returns (n: nat)
    requires p.Complete()
    ensures n == TileLoad(p, |p.order|, false) % WORD64
  {
    n := 0;
    for k := 0 to |p.order|
      invariant n == TileLoad(p, k, false) % WORD64
    {
      TimesIsProduct(1, p.commands[p.order[k]].count);
      n := (n + p.commands[p.order[k]].count) % WORD64;
    }
  }

  method Tiling(plan: Plan, op: string, w: Work) returns (n: uint32)
    requires plan.tileTokens > 0 && op in plan.tiles
    ensures n == TileCount(plan, op, w)
    ensures TilesAre(plan, op, w, n)
  {
    CountIsTiles(plan, op, w);
    var attention := 1;
    if op == "qkt" || op == "sv" {
      QuotientIsDivision((w.context + plan.tileTokens - 1) % WORD32, plan.tileTokens);
      attention := (w.context + plan.tileTokens - 1) % WORD32 / plan.tileTokens;
      if attention == 0 {
        attention := 1;
      }
    }
    TimesIsProduct(plan.tiles[op], attention);
    n := plan.tiles[op] * attention % WORD32;
  }

  method CountOperation(plan: Plan, w: Work, op: string) returns (n: nat)
    requires plan.Usable()
    ensures n == OperationCount(plan, w, op) % WORD64
  {
    if !plan.Matches(op) {
      n := 0;
    } else if plan.Aggregates() {
      n := 1;
    } else {
      var tiles := Tiling(plan, op, w);
      var perTile := CommandsPerTile(plan.profiles[op]);
      n := WrappedProduct(perTile, TileLoad(plan.profiles[op], |plan.profiles[op].order|, false), tiles);
    }
  }

  method WrappedProduct(x: nat, ghost full: nat, m: nat) returns (n: nat)
    requires x == full % WORD64
    ensures n == Times(full, m) % WORD64
  {
    TimesIsProduct(full, m);
    SameProduct(x, full, m);
    n := x * m % WORD64;
  }

  /** The counting pass: the number of transactions the emission pass will create. */
  method CountTransactions(plan: Plan, works: seq<Work>) returns (total: nat)
    requires plan.Usable()
    ensures total == |Stream(plan, works)| % WORD64
  {
    var perLayer := 0;
    for i := 0 to |works|
      invariant perLayer == PerLayer(plan, works, i) % WORD64
    {
      ghost var before := PerLayer(plan, works, i);
      for k := 0 to |plan.ops|
        invariant perLayer == (before + WorkCount(plan, works[i], k)) % WORD64
      {
        var n := CountOperation(plan, works[i], plan.ops[k]);
        perLayer := AddWrapped(perLayer, n, before + WorkCount(plan, works[i], k), OperationCount(plan, works[i], plan.ops[k]));
      }
    }
    StreamLength(plan, works, plan.SimulatedLayers(), |works|);
    total := WrappedProduct(perLayer, PerLayer(plan, works, |works|), plan.SimulatedLayers());
  }

  method AddWrapped(x: nat, y: nat, ghost a: nat, ghost b: nat) returns (n: nat)
    requires x == a % WORD64 && y == b % WORD64
    ensures n == (a + b) % WORD64
  {
    n := (x + y) % WORD64;
  }

  class Host {
    var pending: seq<Transaction>

    constructor ()
      ensures pending == []
    {
      pending := [];
    }

    /** The queue holds `base` and the flagged transactions `done`, `index` of them. */
    ghost predicate Queued(base: seq<Transaction>, done: seq<Item>, index: nat, total: nat)
      reads this
    {
      pending == base + Flagged(done, total) && index == |done| % WORD64
    }

    method Push(item: Item, index: nat, total: nat, ghost base: seq<Transaction>, ghost done: seq<Item>)
      returns (next: nat)
      requires Queued(base, done, index, total)
      modifies this
      ensures Queued(base, done + [item], next, total)
    {
      next := NextIndex(index, |done|);
      FlaggedLast(done, item, total);
      pending := pending + [Transaction(item, next == total)];
    }

    static lemma FlaggedLast(done: seq<Item>, item: Item, total: nat)
      ensures Flagged(done + [item], total) == Flagged(done, total) + [Transaction(item, (|done| + 1) % WORD64 == total)]
    {
    }

    /** ++transaction_index in 64 bits. */
    static method NextIndex(index: nat, ghost n: nat) returns (next: nat)
      requires index == n % WORD64
      ensures next == (n + 1) % WORD64
    {
      next := (index + 1) % WORD64;
    }

    method EmitBursts(w: Work, layer: uint32, op: string, name: string, dc: DelayCount, address: nat, index: nat, total: nat,
                      ghost base: seq<Transaction>, ghost done: seq<Item>)
      returns (next: nat)
      requires Queued(base, done, index, total)
      modifies this
      ensures Queued(base, done + Bursts(w, layer, op, name, dc, address, dc.count), next, total)
    {
      next := index;
      assert done + Bursts(w, layer, op, name, dc, address, 0) == done;
      for b := 0 to dc.count
        invariant Queued(base, done + Bursts(w, layer, op, name, dc, address, b), next, total)
      {
        ghost var now := done + Bursts(w, layer, op, name, dc, address, b);
        var item := Micro(w, layer, op, name, b, dc.count, dc.delay, address);
        next := Push(item, next, total, base, now);
        assert now + [item] == done + Bursts(w, layer, op, name, dc, address, b + 1);
      }
    }

    method EmitTile(w: Work, layer: uint32, op: string, p: Profile, index: nat, total: nat,
                    ghost base: seq<Transaction>, ghost done: seq<Item>)
      returns (next: nat)
      requires p.Complete() && Queued(base, done, index, total)
      modifies this
      ensures Queued(base, done + Tile(w, layer, op, p, |p.order|), next, total)
    {
      next := index;
      assert done + [] == done;
      for k := 0 to |p.order|
        invariant Queued(base, done + Tile(w, layer, op, p, k), next, total)
      {
        var dc := p.commands[p.order[k]];
        ghost var now := done + Tile(w, layer, op, p, k);
        var address := ScaledDelay(dc.delay, p.scale);
        next := EmitBursts(w, layer, op, p.order[k], dc, address, next, total, base, now);
        assert now + Bursts(w, layer, op, p.order[k], dc, address, dc.count) == done + Tile(w, layer, op, p, k + 1);
      }
    }

    method EmitTiles(w: Work, layer: uint32, op: string, p: Profile, tiles: nat, index: nat, total: nat,
                     ghost base: seq<Transaction>, ghost done: seq<Item>)
      returns (next: nat)
      requires p.Complete() && Queued(base, done, index, total)
      modifies this
      ensures Queued(base, done + Tiles(w, layer, op, p, tiles), next, total)
    {
      next := index;
      assert done + [] == done;
      for n := 0 to tiles
        invariant Queued(base, done + Tiles(w, layer, op, p, n), next, total)
      {
        ghost var now := done + Tiles(w, layer, op, p, n);
        next := EmitTile(w, layer, op, p, next, total, base, now);
        assert now + Tile(w, layer, op, p, |p.order|) == done + Tiles(w, layer, op, p, n + 1);
      }
    }

    /** The sums of one macro command. */
    method SumMacro(p: Profile, tiles: nat, layers: nat) returns (micro: nat, delay: nat)
      requires p.Complete()
      ensures micro == MacroLoad(p, |p.order|, tiles, layers, false)
      ensures delay == MacroLoad(p, |p.order|, tiles, layers, true)
    {
      micro, delay := 0, 0;
      for k := 0 to |p.order|
        invariant micro == MacroLoad(p, k, tiles, layers, false)
        invariant delay == MacroLoad(p, k, tiles, layers, true)
      {
        var dc := p.commands[p.order[k]];
        var term := ScaledTerm(dc, tiles, layers, true);
        var count := ScaledTerm(dc, tiles, layers, false);
        delay := (delay + term) % WORD64;
        micro := (micro + count) % WORD64;
      }
    }

    method ScaledTerm(dc: DelayCount, tiles: nat, layers: nat, timed: bool) returns (n: nat)
      ensures n == Times(Times(Term(dc, timed), tiles), layers)
    {
      var weight := if timed then dc.delay else 1;
      TimesIsProduct(weight, dc.count);
      TimesIsProduct(weight * dc.count, tiles);
      TimesIsProduct(weight * dc.count * tiles, layers);
      n := weight * dc.count * tiles * layers;
    }

    method EmitOperation(plan: Plan, w: Work, layer: uint32, op: string, index: nat, total: nat,
                         ghost base: seq<Transaction>, ghost done: seq<Item>)
      returns (next: nat)
      requires plan.Usable() && Queued(base, done, index, total)
      modifies this
      ensures Queued(base, done + Operation(plan, w, layer, op), next, total)
    {
      next := index;
      if !plan.Matches(op) {
        assert done + [] == done;
        return;
      }
      var tiles := Tiling(plan, op, w);
      if plan.Aggregates() {
        var micro, delay := SumMacro(plan.profiles[op], tiles, plan.Multiplier());
        var address := MacroAddress(delay, micro, plan.profiles[op].scale);
        next := Push(Macro(w, layer, op, micro, delay, address), next, total, base, done);
      } else {
        next := EmitTiles(w, layer, op, plan.profiles[op], tiles, next, total, base, done);
      }
    }

    method EmitLayer(plan: Plan, w: Work, layer: uint32, index: nat, total: nat,
                     ghost base: seq<Transaction>, ghost done: seq<Item>)
      returns (next: nat)
      requires plan.Usable() && Queued(base, done, index, total)
      modifies this
      ensures Queued(base, done + Layer(plan, w, layer, |plan.ops|), next, total)
    {
      next := index;
      assert done + [] == done;
      for k := 0 to |plan.ops|
        invariant Queued(base, done + Layer(plan, w, layer, k), next, total)
      {
        ghost var now := done + Layer(plan, w, layer, k);
        next := EmitOperation(plan, w, layer, plan.ops[k], next, total, base, now);
        assert now + Operation(plan, w, layer, plan.ops[k]) == done + Layer(plan, w, layer, k + 1);
      }
    }

    method EmitLayers(plan: Plan, w: Work, layers: uint32, index: nat, total: nat,
                      ghost base: seq<Transaction>, ghost done: seq<Item>)
      returns (next: nat)
      requires plan.Usable() && Queued(base, done, index, total)
      modifies this
      ensures Queued(base, done + Layers(plan, w, layers), next, total)
    {
      next := index;
      assert done + [] == done;
      for n := 0 to layers
        invariant Queued(base, done + Layers(plan, w, n), next, total)
      {
        ghost var now := done + Layers(plan, w, n);
        next := EmitLayer(plan, w, n, next, total, base, now);
        assert now + Layer(plan, w, n, |plan.ops|) == done + Layers(plan, w, n + 1);
      }
    }

    method EmitWorks(plan: Plan, works: seq<Work>, layers: uint32, total: nat)
      requires plan.Usable()
      modifies this
      ensures pending == old(pending) + Flagged(WorkStream(plan, works, layers, |works|), total)
    {
      ghost var base := pending;
      var next := 0;
      assert base + Flagged([], total) == base;
      for i := 0 to |works|
        invariant Queued(base, WorkStream(plan, works, layers, i), next, total)
      {
        next := EmitLayers(plan, works[i], layers, next, total, base, WorkStream(plan, works, layers, i));
      }
    }

    /** The synthetic PIM stage. It throws on a model without layers and when the counted
        total is zero; otherwise the final transaction carries `last`, and it alone does
        exactly when the true number of transactions is below 2^64. */
    method EmitSynthetic(plan: Plan, works: seq<Work>) returns (ok: bool)
      requires plan.Usable()
      modifies this
      ensures ok <==> plan.layers > 0 && |Stream(plan, works)| % WORD64 != 0
      ensures ok ==> pending == old(pending) + Flagged(Stream(plan, works), |Stream(plan, works)| % WORD64)
      ensures ok ==> pending[|pending| - 1].last
      ensures ok ==> (ExactlyOneLast(pending[|old(pending)|..]) <==> |Stream(plan, works)| < WORD64)
      ensures !ok ==> pending == old(pending)
    {
      if plan.layers == 0 {
        return false;
      }
      var total := CountTransactions(plan, works);
      if total == 0 {
        return false;
      }
      ghost var before := pending;
      EmitWorks(plan, works, plan.SimulatedLayers(), total);
      LastOfQueue(before, Stream(plan, works), total);
      return true;
    }

    /** The flags of a stream at the end of the queue, when the counted total is not zero. */
    static lemma LastOfQueue(base: seq<Transaction>, s: seq<Item>, total: nat)
      requires total == |s| % WORD64 && total != 0
      ensures var q := base + Flagged(s, total);
              q[|q| - 1].last && (ExactlyOneLast(q[|base|..]) <==> |s| < WORD64)
    {
      LastFlag(s, total);
      assert (base + Flagged(s, total))[|base|..] == Flagged(s, total);
    }

    /** One control step of the synthetic mode: the target model's NPU transaction comes first, even
        when the draft work then throws. */
    method SyntheticStep(c: Control, plan: Plan, target: Item) returns (ok: bool, ghost works: seq<Work>)
      requires plan.Usable() && |c.fanOut| < WORD32 && target.Target?
      modifies this
      ensures c.ssd ==> |works| == c.treeSteps * Sum(c.fanOut, |c.fanOut|) && Serialises(c, works)
      ensures !c.ssd ==> |works| == c.proposals
      ensures ok <==> plan.layers > 0 && |Stream(plan, works)| % WORD64 != 0
      ensures pending == old(pending) + [Transaction(target, false)]
                         + if ok then Flagged(Stream(plan, works), |Stream(plan, works)| % WORD64) else []
    {
      var items := ExpandWork(c);
      works := items;
      pending := pending + [Transaction(target, false)];
      ok := EmitSynthetic(plan, items);
    }

    /** The template stage. Exactly one transaction is the last one when the product of work items,
        tiles and commands per tile is between 1 and 2^64; with no work the queue stays as it was,
        with nothing that could release the barrier. */
    method EmitTemplate(op: string, p: Profile, tiles: uint32, works: seq<Work>)
      requires p.Complete()
      modifies this
      ensures var s := TemplateStream(op, p, tiles, works, |works|);
              pending == old(pending) + Flagged(s, |s| % WORD64)
      ensures ExactlyOneLast(pending[|old(pending)|..])
         <==> 0 < TileLoad(p, |p.order|, false) * tiles * |works| <= WORD64
    {
      var perTile := CommandsPerTile(p);
      ghost var load := TileLoad(p, |p.order|, false);
      var perItem := WrappedProduct(perTile, load, tiles);
      var total := WrappedProduct(perItem, Times(load, tiles), |works|);
      ghost var s := TemplateStream(op, p, tiles, works, |works|);
      TemplateLength(op, p, tiles, works, |works|);
      TimesIsProduct(load, tiles);
      TimesIsProduct(load * tiles, |works|);
      ghost var base := pending;
      EmitTemplateWorks(op, p, tiles, works, total);
      LastFlag(s, total);
      assert pending[|base|..] == Flagged(s, total);
    }

    method EmitTemplateWorks(op: string, p: Profile, tiles: uint32, works: seq<Work>, total: nat)
      requires p.Complete()
      modifies this
      ensures pending == old(pending) + Flagged(TemplateStream(op, p, tiles, works, |works|), total)
    {
      ghost var base := pending;
      var next := 0;
      assert base + Flagged([], total) == base;
      for i := 0 to |works|
        invariant Queued(base, TemplateStream(op, p, tiles, works, i), next, total)
      {
        next := EmitTiles(works[i], 0, op, p, tiles, next, total, base, TemplateStream(op, p, tiles, works, i));
      }
    }
  }
}
