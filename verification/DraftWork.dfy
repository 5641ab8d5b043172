/** The draft work of one speculative control step: its work items, and the stream of PIM
    transactions they expand to (Host::handle_speculative_trace in host.cpp). Streams are
    the order of the emission loops; counts are unwrapped, and the machine's wrap-around
    is `% WORD64`. */
module DraftWork {
  import opened Arithmetic

  const WORD32: nat := 0x1_0000_0000
  const WORD64: nat := 0x1_0000_0000_0000_0000

  type uint32 = n: nat | n < 0x1_0000_0000

  datatype Control = Control(ssd: bool, treeSteps: uint32, fanOut: seq<uint32>, proposals: uint32, kvTokens: uint32)

  datatype Work = Work(context: uint32, treeStep: uint32, depth: uint32, branch: uint32)

  datatype DelayCount = DelayCount(delay: uint32, count: uint32)

  /** A PIM operation: the configuration reader enters every ordered name into the map. */
  datatype Profile = Profile(order: seq<string>, commands: map<string, DelayCount>, scale: real) {
    predicate Complete() {
      forall i :: 0 <= i < |order| ==> order[i] in commands
    }
  }

  datatype Plan = Plan(
    ops: seq<string>,
    layers: uint32,
    tileTokens: uint32,
    profiles: map<string, Profile>,
    tiles: map<string, uint32>,
    aggregateMicro: bool,
    fastLayers: bool,
    macroGranularity: bool)
  {
    predicate Aggregates() {
      aggregateMicro || fastLayers
    }

    predicate Collapses() {
      fastLayers && macroGranularity
    }

    function SimulatedLayers(): uint32 {
      if Collapses() then 1 else layers
    }

    function Multiplier(): uint32 {
      if Collapses() then layers else 1
    }

    predicate Matches(op: string) {
      op in profiles && op in tiles
    }

    /** A zero tile size would divide by zero in the source. */
    predicate Usable() {
      && tileTokens > 0
      && forall op :: op in profiles ==> profiles[op].Complete()
    }

    /** The same work with one transaction per micro-command and every layer simulated. */
    function Expanded(): Plan {
      this.(aggregateMicro := false, fastLayers := false)
    }
  }

  /** `delay` is the profile's delay and `address` the scaled one that the device waits for;
      `micro` and `delay` of a macro command are the source's uint64_t sums. `Target` is the NPU
      transaction that starts the target model. */
  datatype Item =
    | Micro(work: Work, layer: uint32, op: string, name: string, burst: uint32, size: uint32, delay: nat, address: nat)
    | Macro(work: Work, layer: uint32, op: string, micro: nat, delay: nat, address: nat)
    | Target(queryTokens: uint32, kvTokens: uint32, writeTokens: uint32)

  datatype Transaction = Transaction(item: Item, last: bool)

  // ---------- Products ----------

  /** Multiplication (TimesIsProduct), written as repeated addition to keep proofs linear. */
  function Times(a: nat, n: nat): nat {
    if n == 0 then 0 else Times(a, n - 1) + a
  }

  lemma {:induction false} TimesIsProduct(a: nat, n: nat)
    ensures Times(a, n) == a * n
  {
    if n > 0 {
      TimesIsProduct(a, n - 1);
      Distribute(n - 1, 1, a);
    }
  }

  lemma {:induction false} TimesAdds(a: nat, b: nat, n: nat)
    ensures Times(a + b, n) == Times(a, n) + Times(b, n)
  {
    if n > 0 {
      TimesAdds(a, b, n - 1);
    }
  }

  lemma {:induction false} TimesZero(n: nat)
    ensures Times(0, n) == 0
  {
    if n > 0 {
      TimesZero(n - 1);
    }
  }

  /** Division (QuotientIsDivision), written as repeated subtraction. */
  function Quotient(n: nat, d: nat): (q: nat)
    requires d > 0
    ensures q <= n
  {
    if n < d then 0 else 1 + Quotient(n - d, d)
  }

  lemma QuotientStep(n: nat, d: nat)
    requires d > 0
    ensures (n + d) / d == n / d + 1
  {
    var q, r := n / d, n % d;
    assert n == q * d + r;
    Distribute(q, 1, d);
    Digits(q + 1, r, d);
  }

  lemma {:induction false} QuotientIsDivision(n: nat, d: nat)
    requires d > 0
    ensures Quotient(n, d) == n / d
  {
    if n >= d {
      QuotientIsDivision(n - d, d);
      QuotientStep(n - d, d);
    }
  }

  lemma TwiceAdds(a: nat, b: nat, m: nat, n: nat)
    ensures Times(Times(a + b, m), n) == Times(Times(a, m), n) + Times(Times(b, m), n)
  {
    TimesAdds(a, b, m);
    TimesAdds(Times(a, m), Times(b, m), n);
  }

  lemma TwiceZero(m: nat, n: nat)
    ensures Times(Times(0, m), n) == 0
  {
    TimesZero(m);
    TimesZero(n);
  }

  // ---------- Work items ----------

  function Sum(xs: seq<uint32>, n: nat): nat
    requires n <= |xs|
  {
    if n == 0 then 0 else Sum(xs, n - 1) + xs[n - 1]
  }

  /** Position of branch `b` at depth `d` of tree step `s` in the serialised tree. */
  function Position(c: Control, s: nat, d: nat, b: nat): nat
    requires d <= |c.fanOut|
  {
    s * Sum(c.fanOut, |c.fanOut|) + Sum(c.fanOut, d) + b
  }

  predicate Node(c: Control, s: nat, d: nat, b: nat) {
    s < c.treeSteps && d < |c.fanOut| && b < c.fanOut[d]
  }

  function NodeWork(c: Control, s: nat, d: nat, b: nat): Work
    requires |c.fanOut| < WORD32 && Node(c, s, d, b)
  {
    Work((c.kvTokens + d + s) % WORD32, s, d, b)
  }

  lemma {:induction false} SumMonotone(xs: seq<uint32>, m: nat, n: nat)
    requires m <= n <= |xs|
    ensures Sum(xs, m) <= Sum(xs, n)
  {
    if m < n {
      SumMonotone(xs, m, n - 1);
    }
  }

  lemma {:induction false} SumCovers(xs: seq<uint32>, r: nat, n: nat) returns (d: nat)
    requires n <= |xs| && r < Sum(xs, n)
    ensures d < n && Sum(xs, d) <= r < Sum(xs, d) + xs[d]
  {
    d := n - 1;
    if r < Sum(xs, n - 1) {
      d := SumCovers(xs, r, n - 1);
    }
  }

  /** A position lies inside the tree step it belongs to. */
  lemma PositionInStep(c: Control, s: nat, d: nat, b: nat)
    requires Node(c, s, d, b)
    ensures Sum(c.fanOut, d) + b < Sum(c.fanOut, d + 1) <= Sum(c.fanOut, |c.fanOut|)
    ensures Position(c, s, d, b) < c.treeSteps * Sum(c.fanOut, |c.fanOut|)
  {
    SumMonotone(c.fanOut, d + 1, |c.fanOut|);
    DigitBelow(s, c.treeSteps, Sum(c.fanOut, d) + b, Sum(c.fanOut, |c.fanOut|));
  }

  /** Two different tree nodes have different positions. */
  lemma PositionIsInjective(c: Control, s: nat, d: nat, b: nat, s': nat, d': nat, b': nat)
    requires Node(c, s, d, b) && Node(c, s', d', b')
    requires Position(c, s, d, b) == Position(c, s', d', b')
    ensures s == s' && d == d' && b == b'
  {
    var m := Sum(c.fanOut, |c.fanOut|);
    PositionInStep(c, s, d, b);
    PositionInStep(c, s', d', b');
    Digits(s, Sum(c.fanOut, d) + b, m);
    Digits(s', Sum(c.fanOut, d') + b', m);
    if d < d' {
      SumMonotone(c.fanOut, d + 1, d');
    } else if d' < d {
      SumMonotone(c.fanOut, d' + 1, d);
    }
  }

  /** Every position below the node count is the position of some tree node. */
  lemma PositionIsOnto(c: Control, k: nat) returns (s: nat, d: nat, b: nat)
    requires k < c.treeSteps * Sum(c.fanOut, |c.fanOut|)
    ensures Node(c, s, d, b) && Position(c, s, d, b) == k
  {
    var m := Sum(c.fanOut, |c.fanOut|);
    s := k / m;
    d := SumCovers(c.fanOut, k % m, |c.fanOut|);
    b := k % m - Sum(c.fanOut, d);
    assert k == s * m + k % m;
    if s >= c.treeSteps {
      MulMonotone(c.treeSteps, s, m);
    }
  }

  // ---------- Tiles ----------

  /** Attention operations repeat their tiles once per block of context tokens. */
  function AttentionTiles(plan: Plan, op: string, w: Work): uint32
    requires plan.tileTokens > 0
  {
    if op != "qkt" && op != "sv" then 1
    else
      var blocks := Quotient((w.context + plan.tileTokens - 1) % WORD32, plan.tileTokens);
      if blocks == 0 then 1 else blocks
  }

  /** tile_count: a product of two 32-bit values, kept in 32 bits by both passes. */
  function TileCount(plan: Plan, op: string, w: Work): uint32
    requires plan.tileTokens > 0 && op in plan.tiles
  {
    Times(plan.tiles[op], AttentionTiles(plan, op, w)) % WORD32
  }

  // ---------- Scaled delays ----------

  /** std::round: to the nearest integer, halves away from zero. */
  function Round(x: real): int {
    if x >= 0.0 then (x + 0.5).Floor else -(0.5 - x).Floor
  }

  /** scaled_delay of a micro-command. */
  function ScaledDelay(delay: nat, scale: real): nat {
    var d := Round(delay as real * scale);
    if d < 1 then 1 else d
  }

  /** scaled_total_ns of a macro command: its delays and half a nanosecond per micro-command. */
  function ScaledTotal(delay: nat, micro: nat, scale: real): real {
    (delay as real + 0.5 * micro as real) * scale
  }

  /** macro_delay_ns, and its narrowing to 32 bits. */
  function MacroDelay(delay: nat, micro: nat, scale: real): nat {
    var d := Round(ScaledTotal(delay, micro, scale) - 0.5);
    if d < 0 then 0 else d
  }

  function MacroAddress(delay: nat, micro: nat, scale: real): uint32 {
    MacroDelay(delay, micro, scale) % WORD32
  }

  // ---------- The emitted stream ----------

  function Bursts(w: Work, layer: uint32, op: string, name: string, dc: DelayCount, address: nat, n: nat): (s: seq<Item>)
    requires n <= dc.count
    ensures |s| == n
  {
    seq(n, b requires 0 <= b < n => Micro(w, layer, op, name, b, dc.count, dc.delay, address))
  }

  /** The first `k` commands of one tile. */
  function Tile(w: Work, layer: uint32, op: string, p: Profile, k: nat): seq<Item>
    requires p.Complete() && k <= |p.order|
  {
    if k == 0 then []
    else
      var dc := p.commands[p.order[k - 1]];
      Tile(w, layer, op, p, k - 1) + Bursts(w, layer, op, p.order[k - 1], dc, ScaledDelay(dc.delay, p.scale), dc.count)
  }

  function Tiles(w: Work, layer: uint32, op: string, p: Profile, n: nat): seq<Item>
    requires p.Complete()
  {
    if n == 0 then [] else Tiles(w, layer, op, p, n - 1) + Tile(w, layer, op, p, |p.order|)
  }

  function Term(dc: DelayCount, timed: bool): nat {
    Times(if timed then dc.delay else 1, dc.count)
  }

  /** `delay` (timed) or 1 for each micro-command of the first `k` entries of a tile. */
  function TileLoad(p: Profile, k: nat, timed: bool): nat
    requires p.Complete() && k <= |p.order|
  {
    if k == 0 then 0
    else
      var dc := p.commands[p.order[k - 1]];
      TileLoad(p, k - 1, timed) + Term(dc, timed)
  }

  /** The sum kept for a macro command: each term scaled by tiles and by layers. */
  function MacroLoad(p: Profile, k: nat, tiles: nat, layers: nat, timed: bool): nat
    requires p.Complete() && k <= |p.order|
  {
    if k == 0 then 0
    else
      var dc := p.commands[p.order[k - 1]];
      (MacroLoad(p, k - 1, tiles, layers, timed) + Times(Times(Term(dc, timed), tiles), layers)) % WORD64
  }

  function MacroItem(plan: Plan, w: Work, layer: uint32, op: string): Item
    requires plan.Usable() && plan.Matches(op)
  {
    var p, n, m := plan.profiles[op], TileCount(plan, op, w), plan.Multiplier();
    var micro, delay := MacroLoad(p, |p.order|, n, m, false), MacroLoad(p, |p.order|, n, m, true);
    Macro(w, layer, op, micro, delay, MacroAddress(delay, micro, p.scale))
  }

  /** One model operation in one decoder layer. */
  function Operation(plan: Plan, w: Work, layer: uint32, op: string): seq<Item>
    requires plan.Usable()
  {
    if !plan.Matches(op) then []
    else if plan.Aggregates() then [MacroItem(plan, w, layer, op)]
    else Tiles(w, layer, op, plan.profiles[op], TileCount(plan, op, w))
  }

  function Layer(plan: Plan, w: Work, layer: uint32, k: nat): seq<Item>
    requires plan.Usable() && k <= |plan.ops|
  {
    if k == 0 then [] else Layer(plan, w, layer, k - 1) + Operation(plan, w, layer, plan.ops[k - 1])
  }

  function Layers(plan: Plan, w: Work, n: nat): seq<Item>
    requires plan.Usable() && n <= WORD32
  {
    if n == 0 then [] else Layers(plan, w, n - 1) + Layer(plan, w, n - 1, |plan.ops|)
  }

  /** The transactions of the first `n` work items, each over `layers` decoder layers. */
  function WorkStream(plan: Plan, works: seq<Work>, layers: uint32, n: nat): seq<Item>
    requires plan.Usable() && n <= |works|
  {
    if n == 0 then [] else WorkStream(plan, works, layers, n - 1) + Layers(plan, works[n - 1], layers)
  }

  function Stream(plan: Plan, works: seq<Work>): seq<Item>
    requires plan.Usable()
  {
    WorkStream(plan, works, plan.SimulatedLayers(), |works|)
  }

  /** The stream of the template path: one profile, no layers. */
  function TemplateStream(op: string, p: Profile, tiles: nat, works: seq<Work>, n: nat): seq<Item>
    requires p.Complete() && n <= |works|
  {
    if n == 0 then [] else TemplateStream(op, p, tiles, works, n - 1) + Tiles(works[n - 1], 0, op, p, tiles)
  }

  // ---------- The counting pass ----------

  function OperationCount(plan: Plan, w: Work, op: string): nat
    requires plan.Usable()
  {
    if !plan.Matches(op) then 0
    else if plan.Aggregates() then 1
    else Times(TileLoad(plan.profiles[op], |plan.profiles[op].order|, false), TileCount(plan, op, w))
  }

  function WorkCount(plan: Plan, w: Work, k: nat): nat
    requires plan.Usable() && k <= |plan.ops|
  {
    if k == 0 then 0 else WorkCount(plan, w, k - 1) + OperationCount(plan, w, plan.ops[k - 1])
  }

  /** per_decoder_layer_transactions after `n` work items. */
  function PerLayer(plan: Plan, works: seq<Work>, n: nat): nat
    requires plan.Usable() && n <= |works|
  {
    if n == 0 then 0 else PerLayer(plan, works, n - 1) + WorkCount(plan, works[n - 1], |plan.ops|)
  }

  lemma {:induction false} TileLength(w: Work, layer: uint32, op: string, p: Profile, k: nat)
    requires p.Complete() && k <= |p.order|
    ensures |Tile(w, layer, op, p, k)| == TileLoad(p, k, false)
    decreases k
  {
    if k > 0 {
      TileLength(w, layer, op, p, k - 1);
      TimesIsProduct(1, p.commands[p.order[k - 1]].count);
    }
  }

  lemma {:induction false} TilesLength(w: Work, layer: uint32, op: string, p: Profile, n: nat)
    requires p.Complete()
    ensures |Tiles(w, layer, op, p, n)| == Times(TileLoad(p, |p.order|, false), n)
    decreases n
  {
    if n > 0 {
      TilesLength(w, layer, op, p, n - 1);
      TileLength(w, layer, op, p, |p.order|);
    }
  }

  lemma {:induction false} LayerLength(plan: Plan, w: Work, layer: uint32, k: nat)
    requires plan.Usable() && k <= |plan.ops|
    ensures |Layer(plan, w, layer, k)| == WorkCount(plan, w, k)
    decreases k
  {
    if k > 0 {
      LayerLength(plan, w, layer, k - 1);
      var op := plan.ops[k - 1];
      if plan.Matches(op) {
        TilesLength(w, layer, op, plan.profiles[op], TileCount(plan, op, w));
      }
    }
  }

  lemma {:induction false} LayersLength(plan: Plan, w: Work, n: nat)
    requires plan.Usable() && n <= WORD32
    ensures |Layers(plan, w, n)| == Times(WorkCount(plan, w, |plan.ops|), n)
    decreases n
  {
    if n > 0 {
      LayersLength(plan, w, n - 1);
      LayerLength(plan, w, n - 1, |plan.ops|);
    }
  }

  /** The emission loops produce layers times what the counting loops add up, although
      emission nests layers inside work items and counting does not. */
  lemma {:induction false} StreamLength(plan: Plan, works: seq<Work>, layers: uint32, n: nat)
    requires plan.Usable() && n <= |works|
    ensures |WorkStream(plan, works, layers, n)| == Times(PerLayer(plan, works, n), layers)
    decreases n
  {
    if n > 0 {
      StreamLength(plan, works, layers, n - 1);
      LayersLength(plan, works[n - 1], layers);
      TimesAdds(PerLayer(plan, works, n - 1), WorkCount(plan, works[n - 1], |plan.ops|), layers);
    } else {
      TimesZero(layers);
    }
  }

  lemma {:induction false} TemplateLength(op: string, p: Profile, tiles: nat, works: seq<Work>, n: nat)
    requires p.Complete() && n <= |works|
    ensures |TemplateStream(op, p, tiles, works, n)| == Times(Times(TileLoad(p, |p.order|, false), tiles), n)
    decreases n
  {
    if n > 0 {
      TemplateLength(op, p, tiles, works, n - 1);
      TilesLength(works[n - 1], 0, op, p, tiles);
    }
  }

  // ---------- Congruence modulo 2^64 ----------

  predicate Same(a: int, b: int) {
    a % WORD64 == b % WORD64
  }

  lemma SameSum(a: int, b: int, c: int, d: int)
    requires Same(a, b) && Same(c, d)
    ensures Same(a + c, b + d)
  {
  }

  lemma TurnsTimes(b: int, q: int, k: int)
    ensures (b + WORD64 * q) * k == b * k + WORD64 * (q * k)
  {
    Distribute(b, WORD64 * q, k);
  }

  lemma SameAfterTurns(a: int, b: int, turns: int)
    requires a == b + WORD64 * turns
    ensures Same(a, b)
  {
  }

  lemma SameProduct(a: int, b: int, k: int)
    requires Same(a, b)
    ensures Same(a * k, b * k)
  {
    var q := (a - b) / WORD64;
    assert a == b + WORD64 * q;
    TurnsTimes(b, q, k);
    SameAfterTurns(a * k, b * k, q * k);
  }

  // ---------- The last flag ----------

  /** The stream as queued: `last` compares a wrapped running index with the total. */
  function Flagged(s: seq<Item>, total: nat): (t: seq<Transaction>)
    ensures |t| == |s|
  {
    seq(|s|, k requires 0 <= k < |s| => Transaction(s[k], (k + 1) % WORD64 == total))
  }

  /** There is a final transaction, and it and no other carries `last`. */
  predicate ExactlyOneLast(t: seq<Transaction>) {
    t != [] && forall k :: 0 <= k < |t| ==> (t[k].last <==> k == |t| - 1)
  }

  /** With the counted total the final transaction always carries `last`; it alone does
      exactly when the stream has between one and 2^64 transactions. */
  lemma LastFlag(s: seq<Item>, total: nat)
    requires total == |s| % WORD64
    ensures s != [] ==> Flagged(s, total)[|s| - 1].last
    ensures ExactlyOneLast(Flagged(s, total)) <==> 0 < |s| <= WORD64
  {
    var t := Flagged(s, total);
    if |s| > WORD64 {
      var k := |s| - 1 - WORD64;
      assert (k + 1) % WORD64 == total;
      assert t[k].last;
    }
  }

  // ---------- Aggregation keeps the work ----------

  function Load(i: Item, timed: bool): nat {
    match i
    case Micro(_, _, _, _, _, _, delay, _) => if timed then delay else 1
    case Macro(_, _, _, micro, delay, _) => if timed then delay else micro
    case Target(_, _, _) => 0
  }

  function StreamLoad(s: seq<Item>, timed: bool): nat {
    if s == [] then 0 else StreamLoad(s[..|s| - 1], timed) + Load(s[|s| - 1], timed)
  }

  lemma {:induction false} LoadAppends(a: seq<Item>, b: seq<Item>, timed: bool)
    ensures StreamLoad(a + b, timed) == StreamLoad(a, timed) + StreamLoad(b, timed)
  {
    if b == [] {
      assert a + b == a;
    } else {
      assert (a + b)[..|a + b| - 1] == a + b[..|b| - 1];
      LoadAppends(a, b[..|b| - 1], timed);
    }
  }

  lemma {:induction false} BurstsLoad(w: Work, layer: uint32, op: string, name: string, dc: DelayCount, address: nat, n: nat, timed: bool)
    requires n <= dc.count
    ensures StreamLoad(Bursts(w, layer, op, name, dc, address, n), timed) == Times(if timed then dc.delay else 1, n)
    decreases n
  {
    if n > 0 {
      var s := Bursts(w, layer, op, name, dc, address, n);
      assert s[..n - 1] == Bursts(w, layer, op, name, dc, address, n - 1);
      BurstsLoad(w, layer, op, name, dc, address, n - 1, timed);
    }
  }

  lemma {:induction false} TileLoads(w: Work, layer: uint32, op: string, p: Profile, k: nat, timed: bool)
    requires p.Complete() && k <= |p.order|
    ensures StreamLoad(Tile(w, layer, op, p, k), timed) == TileLoad(p, k, timed)
    decreases k
  {
    if k > 0 {
      TileLoads(w, layer, op, p, k - 1, timed);
      var dc := p.commands[p.order[k - 1]];
      var b := Bursts(w, layer, op, p.order[k - 1], dc, ScaledDelay(dc.delay, p.scale), dc.count);
      BurstsLoad(w, layer, op, p.order[k - 1], dc, ScaledDelay(dc.delay, p.scale), dc.count, timed);
      LoadAppends(Tile(w, layer, op, p, k - 1), b, timed);
    }
  }

  lemma {:induction false} TilesLoad(w: Work, layer: uint32, op: string, p: Profile, n: nat, timed: bool)
    requires p.Complete()
    ensures StreamLoad(Tiles(w, layer, op, p, n), timed) == Times(TileLoad(p, |p.order|, timed), n)
    decreases n
  {
    if n > 0 {
      TilesLoad(w, layer, op, p, n - 1, timed);
      TileLoads(w, layer, op, p, |p.order|, timed);
      LoadAppends(Tiles(w, layer, op, p, n - 1), Tile(w, layer, op, p, |p.order|), timed);
    }
  }

  lemma LoadStep(kept: nat, before: nat, term: nat, tiles: nat, layers: nat)
    requires Same(kept, Times(Times(before, tiles), layers))
    ensures Same((kept + Times(Times(term, tiles), layers)) % WORD64, Times(Times(before + term, tiles), layers))
  {
    TwiceAdds(before, term, tiles, layers);
    var added := Times(Times(term, tiles), layers);
    SameSum(kept, Times(Times(before, tiles), layers), added, added);
  }

  /** The wrapped sum over scaled terms is the scaled sum, modulo 2^64. */
  lemma {:induction false} MacroLoadIsScaled(p: Profile, k: nat, tiles: nat, layers: nat, timed: bool)
    requires p.Complete() && k <= |p.order|
    ensures Same(MacroLoad(p, k, tiles, layers, timed), Times(Times(TileLoad(p, k, timed), tiles), layers))
    decreases k
  {
    if k > 0 {
      MacroLoadIsScaled(p, k - 1, tiles, layers, timed);
      LoadStep(MacroLoad(p, k - 1, tiles, layers, timed), TileLoad(p, k - 1, timed),
               Term(p.commands[p.order[k - 1]], timed), tiles, layers);
    } else {
      TwiceZero(tiles, layers);
    }
  }

  /** Modulo 2^64, `a` carries `m` times the load of `b`. */
  predicate Carries(a: seq<Item>, b: seq<Item>, m: nat, timed: bool) {
    Same(StreamLoad(a, timed), Times(StreamLoad(b, timed), m))
  }

  lemma CarriesAppend(a: seq<Item>, a': seq<Item>, b: seq<Item>, b': seq<Item>, m: nat, timed: bool)
    requires Carries(a, b, m, timed) && Carries(a', b', m, timed)
    ensures Carries(a + a', b + b', m, timed)
  {
    LoadAppends(a, a', timed);
    LoadAppends(b, b', timed);
    TimesAdds(StreamLoad(b, timed), StreamLoad(b', timed), m);
    SameSum(StreamLoad(a, timed), Times(StreamLoad(b, timed), m), StreamLoad(a', timed), Times(StreamLoad(b', timed), m));
  }

  lemma CarriesNothing(m: nat, timed: bool)
    ensures Carries([], [], m, timed)
  {
    TimesZero(m);
  }

  /** A macro command carries its multiplier times the operation's expanded commands. */
  lemma MacroCarries(plan: Plan, w: Work, layer: uint32, op: string, timed: bool)
    requires plan.Usable() && plan.Matches(op)
    ensures Carries([MacroItem(plan, w, layer, op)],
                    Tiles(w, layer, op, plan.profiles[op], TileCount(plan, op, w)), plan.Multiplier(), timed)
  {
    var p, n := plan.profiles[op], TileCount(plan, op, w);
    MacroLoadIsScaled(p, |p.order|, n, plan.Multiplier(), timed);
    TilesLoad(w, layer, op, p, n, timed);
    var one := [MacroItem(plan, w, layer, op)];
    assert one[..0] == [];
    assert StreamLoad(one, timed) == Load(one[0], timed);
  }

  lemma CarriesSelf(a: seq<Item>, timed: bool)
    ensures Carries(a, a, 1, timed)
  {
    assert Times(StreamLoad(a, timed), 0) == 0;
  }

  lemma OperationCarries(plan: Plan, w: Work, layer: uint32, op: string, timed: bool)
    requires plan.Usable()
    ensures Carries(Operation(plan, w, layer, op), Operation(plan.Expanded(), w, layer, op), plan.Multiplier(), timed)
  {
    if !plan.Matches(op) {
      CarriesNothing(plan.Multiplier(), timed);
    } else if plan.Aggregates() {
      MacroCarries(plan, w, layer, op, timed);
    } else {
      CarriesSelf(Operation(plan, w, layer, op), timed);
    }
  }

  lemma {:induction false} LayerCarries(plan: Plan, w: Work, layer: uint32, k: nat, timed: bool)
    requires plan.Usable() && k <= |plan.ops|
    ensures Carries(Layer(plan, w, layer, k), Layer(plan.Expanded(), w, layer, k), plan.Multiplier(), timed)
    decreases k
  {
    if k == 0 {
      CarriesNothing(plan.Multiplier(), timed);
    } else {
      var op := plan.ops[k - 1];
      LayerCarries(plan, w, layer, k - 1, timed);
      OperationCarries(plan, w, layer, op, timed);
      CarriesAppend(Layer(plan, w, layer, k - 1), Operation(plan, w, layer, op),
                    Layer(plan.Expanded(), w, layer, k - 1), Operation(plan.Expanded(), w, layer, op), plan.Multiplier(), timed);
    }
  }

  lemma LayersCarryOne(plan: Plan, w: Work, n: nat, m: nat, timed: bool)
    requires plan.Usable() && 0 < n <= WORD32
    requires Carries(Layers(plan, w, n - 1), Layers(plan.Expanded(), w, n - 1), m, timed)
    requires Carries(Layer(plan, w, n - 1, |plan.ops|), Layer(plan.Expanded(), w, n - 1, |plan.ops|), m, timed)
    ensures Carries(Layers(plan, w, n), Layers(plan.Expanded(), w, n), m, timed)
  {
    CarriesAppend(Layers(plan, w, n - 1), Layer(plan, w, n - 1, |plan.ops|), Layers(plan.Expanded(), w, n - 1),
                  Layer(plan.Expanded(), w, n - 1, |plan.ops|), m, timed);
  }

  lemma {:induction false} LayersCarry(plan: Plan, w: Work, n: nat, timed: bool)
    requires plan.Usable() && n <= WORD32
    ensures Carries(Layers(plan, w, n), Layers(plan.Expanded(), w, n), plan.Multiplier(), timed)
    decreases n
  {
    if n == 0 {
      CarriesNothing(plan.Multiplier(), timed);
    } else {
      LayersCarry(plan, w, n - 1, timed);
      LayerCarries(plan, w, n - 1, |plan.ops|, timed);
      LayersCarryOne(plan, w, n, plan.Multiplier(), timed);
    }
  }

  lemma {:induction false} StreamCarries(plan: Plan, works: seq<Work>, layers: uint32, n: nat, timed: bool)
    requires plan.Usable() && n <= |works|
    ensures Carries(WorkStream(plan, works, layers, n), WorkStream(plan.Expanded(), works, layers, n), plan.Multiplier(), timed)
    decreases n
  {
    if n == 0 {
      CarriesNothing(plan.Multiplier(), timed);
    } else {
      StreamCarries(plan, works, layers, n - 1, timed);
      LayersCarry(plan, works[n - 1], layers, timed);
      CarriesAppend(WorkStream(plan, works, layers, n - 1), Layers(plan, works[n - 1], layers),
                    WorkStream(plan.Expanded(), works, layers, n - 1), Layers(plan.Expanded(), works[n - 1], layers),
                    plan.Multiplier(), timed);
    }
  }

  // Every decoder layer of an expanded plan carries the same load.

  lemma TilesCarry(w: Work, layer: uint32, op: string, p: Profile, n: nat, timed: bool)
    requires p.Complete()
    ensures Carries(Tiles(w, layer, op, p, n), Tiles(w, 0, op, p, n), 1, timed)
  {
    TilesLoad(w, layer, op, p, n, timed);
    TilesLoad(w, 0, op, p, n, timed);
    CarriesSelf(Tiles(w, 0, op, p, n), timed);
  }

  lemma {:induction false} LayersAlike(plan: Plan, w: Work, layer: uint32, k: nat, timed: bool)
    requires plan.Usable() && !plan.Aggregates() && k <= |plan.ops|
    ensures Carries(Layer(plan, w, layer, k), Layer(plan, w, 0, k), 1, timed)
    decreases k
  {
    if k == 0 {
      CarriesNothing(1, timed);
    } else {
      var op := plan.ops[k - 1];
      LayersAlike(plan, w, layer, k - 1, timed);
      if plan.Matches(op) {
        TilesCarry(w, layer, op, plan.profiles[op], TileCount(plan, op, w), timed);
      } else {
        CarriesNothing(1, timed);
      }
      CarriesAppend(Layer(plan, w, layer, k - 1), Operation(plan, w, layer, op),
                    Layer(plan, w, 0, k - 1), Operation(plan, w, 0, op), 1, timed);
    }
  }

  lemma CarriesOneMore(a: seq<Item>, a': seq<Item>, b: seq<Item>, m: nat, n: nat, timed: bool)
    requires Carries(a, b, m, timed) && Carries(a', b, 1, timed) && n == m + 1
    ensures Carries(a + a', b, n, timed)
  {
    assert Times(StreamLoad(b, timed), 0) == 0;
    LoadAppends(a, a', timed);
    SameSum(StreamLoad(a, timed), Times(StreamLoad(b, timed), m), StreamLoad(a', timed), Times(StreamLoad(b, timed), 1));
  }

  lemma CarriesZero(b: seq<Item>, timed: bool)
    ensures Carries([], b, 0, timed)
  {
  }

  lemma LayersGrow(plan: Plan, w: Work, unit: seq<Item>, n: nat, timed: bool)
    requires plan.Usable() && 0 < n <= WORD32
    requires Carries(Layers(plan, w, n - 1), unit, n - 1, timed)
    requires Carries(Layer(plan, w, n - 1, |plan.ops|), unit, 1, timed)
    ensures Carries(Layers(plan, w, n), unit, n, timed)
  {
    CarriesOneMore(Layers(plan, w, n - 1), Layer(plan, w, n - 1, |plan.ops|), unit, n - 1, n, timed);
  }

  lemma {:induction false} LayersScale(plan: Plan, w: Work, unit: seq<Item>, n: nat, timed: bool)
    requires plan.Usable() && !plan.Aggregates() && n <= WORD32
    requires unit == Layer(plan, w, 0, |plan.ops|)
    ensures Carries(Layers(plan, w, n), unit, n, timed)
    decreases n
  {
    if n == 0 {
      CarriesZero(unit, timed);
    } else {
      LayersScale(plan, w, unit, n - 1, timed);
      LayersAlike(plan, w, n - 1, |plan.ops|, timed);
      LayersGrow(plan, w, unit, n, timed);
    }
  }

  function Concat(xs: seq<seq<Item>>): seq<Item> {
    if xs == [] then [] else Concat(xs[..|xs| - 1]) + xs[|xs| - 1]
  }

  lemma {:induction false} ConcatCarries(xs: seq<seq<Item>>, ys: seq<seq<Item>>, m: nat, timed: bool)
    requires |xs| == |ys| && forall i :: 0 <= i < |xs| ==> Carries(xs[i], ys[i], m, timed)
    ensures Carries(Concat(xs), Concat(ys), m, timed)
    decreases |xs|
  {
    if xs == [] {
      CarriesNothing(m, timed);
    } else {
      var n := |xs| - 1;
      ConcatCarries(xs[..n], ys[..n], m, timed);
      CarriesAppend(Concat(xs[..n]), xs[n], Concat(ys[..n]), ys[n], m, timed);
    }
  }

  /** The layers of each work item, and one decoder layer of each. */
  function LayersOf(plan: Plan, works: seq<Work>, layers: uint32): (xs: seq<seq<Item>>)
    requires plan.Usable()
    ensures |xs| == |works|
  {
    seq(|works|, i requires 0 <= i < |works| => Layers(plan, works[i], layers))
  }

  function UnitsOf(plan: Plan, works: seq<Work>): (xs: seq<seq<Item>>)
    requires plan.Usable()
    ensures |xs| == |works|
  {
    seq(|works|, i requires 0 <= i < |works| => Layer(plan, works[i], 0, |plan.ops|))
  }

  lemma {:induction false} StreamIsConcat(plan: Plan, works: seq<Work>, layers: uint32, n: nat)
    requires plan.Usable() && n <= |works|
    ensures WorkStream(plan, works, layers, n) == Concat(LayersOf(plan, works, layers)[..n])
    decreases n
  {
    if n > 0 {
      StreamIsConcat(plan, works, layers, n - 1);
      assert LayersOf(plan, works, layers)[..n][..n - 1] == LayersOf(plan, works, layers)[..n - 1];
    }
  }

  lemma StreamScales(plan: Plan, works: seq<Work>, layers: uint32, timed: bool)
    requires plan.Usable() && !plan.Aggregates()
    ensures Carries(WorkStream(plan, works, layers, |works|), Concat(UnitsOf(plan, works)), layers, timed)
  {
    var xs, ys := LayersOf(plan, works, layers), UnitsOf(plan, works);
    forall i | 0 <= i < |works|
      ensures Carries(xs[i], ys[i], layers, timed)
    {
      LayersScale(plan, works[i], ys[i], layers, timed);
    }
    ConcatCarries(xs, ys, layers, timed);
    StreamIsConcat(plan, works, layers, |works|);
    assert xs[..|works|] == xs;
  }

  lemma SameTimes(a: nat, b: nat, m: nat)
    requires Same(a, b)
    ensures Same(Times(a, m), Times(b, m))
  {
    TimesIsProduct(a, m);
    TimesIsProduct(b, m);
    SameProduct(a, b, m);
  }

  /** If `a` carries `m` times `b` and both `b` and `c` are so many times a unit, so is `a`. */
  lemma CarriesThrough(a: seq<Item>, b: seq<Item>, c: seq<Item>, unit: seq<Item>, m: nat, timed: bool)
    requires Carries(a, b, m, timed) && Carries(b, unit, 1, timed) && Carries(c, unit, m, timed)
    ensures Same(StreamLoad(a, timed), StreamLoad(c, timed))
  {
    assert Times(StreamLoad(unit, timed), 0) == 0;
    SameTimes(StreamLoad(b, timed), StreamLoad(unit, timed), m);
  }

  /** Aggregating micro-commands, collapsing layers or both keeps the total delay and the
      total number of micro-commands of the fully expanded stream, modulo 2^64. */
  lemma AggregationKeepsWork(plan: Plan, works: seq<Work>, timed: bool)
    requires plan.Usable()
    ensures Same(StreamLoad(Stream(plan, works), timed), StreamLoad(Stream(plan.Expanded(), works), timed))
  {
    var layers, full := plan.SimulatedLayers(), plan.Expanded();
    var simulated := WorkStream(full, works, layers, |works|);
    StreamCarries(plan, works, layers, |works|, timed);
    if plan.Collapses() {
      StreamScales(full, works, layers, timed);
      StreamScales(full, works, plan.layers, timed);
      CarriesThrough(Stream(plan, works), simulated, Stream(full, works), Concat(UnitsOf(full, works)), plan.layers, timed);
    } else {
      assert Times(StreamLoad(simulated, timed), 0) == 0;
    }
  }
}
