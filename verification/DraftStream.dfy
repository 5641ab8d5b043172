/** What a draft stage emits, counted out: how many tiles an operation has, and where each tile's
    commands are in the stream. */
module DraftStream {
  import opened Arithmetic
  import opened DraftWork

  // ---------------------------------------------------------------- tiles

  /** Attention operations have one block of tiles for each started block of context tokens, at least
      one, and other operations have one. The sum that rounds the context up is kept in 32 bits. */
  predicate Blocks(plan: Plan, op: string, w: Work, n: nat) {
    var t, sum := plan.tileTokens, w.context + plan.tileTokens - 1;
    && n >= 1
    && (if op != "qkt" && op != "sv" then n == 1
        else if sum < WORD32 then n * t >= w.context && (n > 1 ==> (n - 1) * t < w.context)
        else n == 1 || n * t <= sum - WORD32 < (n + 1) * t)
  }

  /** The tiles of an operation, in 32 bits. */
  ghost predicate TilesAre(plan: Plan, op: string, w: Work, n: nat)
    requires op in plan.tiles
  {
    exists blocks: nat :: Blocks(plan, op, w, blocks) && n == plan.tiles[op] * blocks % WORD32
  }

  lemma QuotientBounds(n: nat, d: nat)
    requires d > 0
    ensures Quotient(n, d) * d <= n < (Quotient(n, d) + 1) * d
  {
    QuotientIsDivision(n, d);
    assert n == (n / d) * d + n % d;
    Distribute(n / d, 1, d);
  }

  lemma AttentionIsBlocks(plan: Plan, op: string, w: Work)
    requires plan.tileTokens > 0
    ensures Blocks(plan, op, w, AttentionTiles(plan, op, w))
  {
    if op == "qkt" || op == "sv" {
      AttentionBlocks(plan, op, w, Quotient((w.context + plan.tileTokens - 1) % WORD32, plan.tileTokens));
    }
  }

  lemma AttentionBlocks(plan: Plan, op: string, w: Work, q: nat)
    requires plan.tileTokens > 0 && q == Quotient((w.context + plan.tileTokens - 1) % WORD32, plan.tileTokens)
    ensures Blocks(plan, op, w, if q == 0 then 1 else q) || (op != "qkt" && op != "sv")
  {
    var t, sum := plan.tileTokens, w.context + plan.tileTokens - 1;
    QuotientBounds(sum % WORD32, t);
    if sum < WORD32 {
      assert sum % WORD32 == sum;
      RoundedUp(w.context, t, q);
    } else {
      assert sum % WORD32 == sum - WORD32;
    }
  }

  /** The quotient that rounds `c` up to multiples of `t`. */
  lemma RoundedUp(c: nat, t: nat, q: nat)
    requires t > 0 && q * t <= c + t - 1 < (q + 1) * t
    ensures q * t >= c && (q - 1) * t < c
    ensures q == 0 ==> c == 0
  {
    Distribute(q, 1, t);
    Distribute(q, -1, t);
  }

  lemma CountIsTiles(plan: Plan, op: string, w: Work)
    requires plan.tileTokens > 0 && op in plan.tiles
    ensures TilesAre(plan, op, w, TileCount(plan, op, w))
  {
    AttentionIsBlocks(plan, op, w);
    TimesIsProduct(plan.tiles[op], AttentionTiles(plan, op, w));
  }

  /** Without wrap-around the number of blocks is the context rounded up, and is the only one. */
  lemma BlocksAreUnique(plan: Plan, op: string, w: Work, m: nat, n: nat)
    requires plan.tileTokens > 0 && Blocks(plan, op, w, m) && Blocks(plan, op, w, n)
    ensures w.context + plan.tileTokens <= WORD32 ==> m == n
  {
    var t := plan.tileTokens;
    if w.context + t <= WORD32 {
      if m < n {
        MulMonotone(m, n - 1, t);
      } else if n < m {
        MulMonotone(n, m - 1, t);
      }
    }
  }

  // ---------------------------------------------------------------- the commands of a tile

  /** Commands before the k-th entry of the order. */
  function Offset(p: Profile, k: nat): nat
    requires p.Complete() && k <= |p.order|
  {
    if k == 0 then 0 else Offset(p, k - 1) + p.commands[p.order[k - 1]].count
  }

  /** The delays before the k-th entry. */
  function DelayBefore(p: Profile, k: nat): nat
    requires p.Complete() && k <= |p.order|
  {
    if k == 0 then 0
    else DelayBefore(p, k - 1) + p.commands[p.order[k - 1]].delay * p.commands[p.order[k - 1]].count
  }

  /** Burst `b` of the k-th entry. */
  function Burst(w: Work, layer: uint32, op: string, p: Profile, k: nat, b: nat): Item
    requires p.Complete() && k < |p.order| && b < p.commands[p.order[k]].count
  {
    var dc := p.commands[p.order[k]];
    Micro(w, layer, op, p.order[k], b, dc.count, dc.delay, ScaledDelay(dc.delay, p.scale))
  }

  /** The list holds all bursts of the first `n` entries, entry by entry in their order. */
  predicate IsCommandList(w: Work, layer: uint32, op: string, p: Profile, n: nat, list: seq<Item>)
    requires p.Complete() && n <= |p.order|
  {
    && |list| == Offset(p, n)
    && forall k: nat, b: nat :: k < n && b < p.commands[p.order[k]].count ==>
                                  EntryAt(w, layer, op, p, list, k, b)
  }

  predicate EntryAt(w: Work, layer: uint32, op: string, p: Profile, list: seq<Item>, k: nat, b: nat)
    requires p.Complete() && k < |p.order| && b < p.commands[p.order[k]].count
  {
    Offset(p, k) + b < |list| && list[Offset(p, k) + b] == Burst(w, layer, op, p, k, b)
  }

  lemma {:induction false} OffsetGrows(p: Profile, k: nat, n: nat)
    requires p.Complete() && k < n <= |p.order|
    ensures Offset(p, k) + p.commands[p.order[k]].count <= Offset(p, n)
  {
    if k < n - 1 {
      OffsetGrows(p, k, n - 1);
    }
  }

  lemma {:induction false} TileIsList(w: Work, layer: uint32, op: string, p: Profile, n: nat)
    requires p.Complete() && n <= |p.order|
    ensures IsCommandList(w, layer, op, p, n, Tile(w, layer, op, p, n))
    decreases n
  {
    if n > 0 {
      TileIsList(w, layer, op, p, n - 1);
      var list, before := Tile(w, layer, op, p, n), Tile(w, layer, op, p, n - 1);
      forall k: nat, b: nat | k < n && b < p.commands[p.order[k]].count
        ensures EntryAt(w, layer, op, p, list, k, b)
      {
        if k < n - 1 {
          assert EntryAt(w, layer, op, p, before, k, b);
        }
      }
    }
  }

  // ---------------------------------------------------------------- the stream

  function Copies<T>(s: seq<T>, n: nat): seq<T> {
    if n == 0 then [] else Copies(s, n - 1) + s
  }

  function Flatten<T>(parts: seq<seq<T>>): seq<T> {
    if parts == [] then [] else Flatten(parts[..|parts| - 1]) + parts[|parts| - 1]
  }

  lemma {:induction false} TilesAreCopies(w: Work, layer: uint32, op: string, p: Profile, n: nat)
    requires p.Complete()
    ensures Tiles(w, layer, op, p, n) == Copies(Tile(w, layer, op, p, |p.order|), n)
    decreases n
  {
    if n > 0 {
      TilesAreCopies(w, layer, op, p, n - 1);
    }
  }

  /** A macro command stands for all commands of `n` tiles in all layers that it collapses, modulo
      2^64. */
  ghost predicate IsMacro(plan: Plan, w: Work, layer: uint32, op: string, n: nat, i: Item)
    requires plan.Usable() && plan.Matches(op)
  {
    var p, layers := plan.profiles[op], if plan.fastLayers && plan.macroGranularity then plan.layers else 1;
    && i.Macro? && i.work == w && i.layer == layer && i.op == op
    && Same(i.micro, Offset(p, |p.order|) * n * layers)
    && Same(i.delay, DelayBefore(p, |p.order|) * n * layers)
  }

  /** What an operation contributes for one work item in one layer: nothing if it has no profile, one
      macro command, or a copy of the command list for each of its tiles. */
  ghost predicate Contributes(plan: Plan, w: Work, layer: uint32, op: string, c: seq<Item>)
    requires plan.Usable()
  {
    if op !in plan.profiles || op !in plan.tiles then c == []
    else
      var p := plan.profiles[op];
      exists n: nat ::
        && TilesAre(plan, op, w, n)
        && if plan.aggregateMicro || plan.fastLayers then |c| == 1 && IsMacro(plan, w, layer, op, n, c[0])
           else exists list :: IsCommandList(w, layer, op, p, |p.order|, list) && c == Copies(list, n)
  }

  lemma {:induction false} LoadsAre(p: Profile, k: nat)
    requires p.Complete() && k <= |p.order|
    ensures TileLoad(p, k, false) == Offset(p, k) && TileLoad(p, k, true) == DelayBefore(p, k)
    decreases k
  {
    if k > 0 {
      LoadsAre(p, k - 1);
      TimesIsProduct(1, p.commands[p.order[k - 1]].count);
      TimesIsProduct(p.commands[p.order[k - 1]].delay, p.commands[p.order[k - 1]].count);
    }
  }

  lemma MacroIs(plan: Plan, w: Work, layer: uint32, op: string)
    requires plan.Usable() && plan.Matches(op)
    ensures IsMacro(plan, w, layer, op, TileCount(plan, op, w), MacroItem(plan, w, layer, op))
  {
    var p, n, m := plan.profiles[op], TileCount(plan, op, w), plan.Multiplier();
    LoadsAre(p, |p.order|);
    MacroLoadIsScaled(p, |p.order|, n, m, true);
    MacroLoadIsScaled(p, |p.order|, n, m, false);
    TwiceIsProduct(Offset(p, |p.order|), n, m);
    TwiceIsProduct(DelayBefore(p, |p.order|), n, m);
  }

  lemma TwiceIsProduct(a: nat, n: nat, m: nat)
    ensures Times(Times(a, n), m) == a * n * m
  {
    TimesIsProduct(a, n);
    TimesIsProduct(a * n, m);
  }

  lemma OperationContributes(plan: Plan, w: Work, layer: uint32, op: string)
    requires plan.Usable()
    ensures Contributes(plan, w, layer, op, Operation(plan, w, layer, op))
  {
    if plan.Matches(op) {
      var p, n := plan.profiles[op], TileCount(plan, op, w);
      CountIsTiles(plan, op, w);
      if plan.Aggregates() {
        MacroIs(plan, w, layer, op);
      } else {
        TileIsList(w, layer, op, p, |p.order|);
        TilesAreCopies(w, layer, op, p, n);
      }
    }
  }

  lemma FlattenGrows<T>(parts: seq<seq<T>>, part: seq<T>)
    ensures Flatten(parts + [part]) == Flatten(parts) + part
  {
    assert (parts + [part])[..|parts|] == parts;
  }

  /** The contributions of the first `k` operations in one layer. */
  ghost predicate LayerIs(plan: Plan, w: Work, layer: uint32, k: nat, parts: seq<seq<Item>>)
    requires plan.Usable() && k <= |plan.ops|
  {
    |parts| == k && forall j :: 0 <= j < k ==> Contributes(plan, w, layer, plan.ops[j], parts[j])
  }

  lemma LayerGrows(plan: Plan, w: Work, layer: uint32, k: nat, parts: seq<seq<Item>>, part: seq<Item>)
    requires plan.Usable() && k < |plan.ops| && LayerIs(plan, w, layer, k, parts) && Contributes(plan, w, layer, plan.ops[k], part)
    ensures LayerIs(plan, w, layer, k + 1, parts + [part])
  {
  }

  lemma {:induction false} LayerIsNested(plan: Plan, w: Work, layer: uint32, k: nat) returns (parts: seq<seq<Item>>)
    requires plan.Usable() && k <= |plan.ops|
    ensures LayerIs(plan, w, layer, k, parts) && Layer(plan, w, layer, k) == Flatten(parts)
    decreases k
  {
    if k == 0 {
      parts := [];
    } else {
      var front := LayerIsNested(plan, w, layer, k - 1);
      var last := Operation(plan, w, layer, plan.ops[k - 1]);
      OperationContributes(plan, w, layer, plan.ops[k - 1]);
      FlattenGrows(front, last);
      LayerGrows(plan, w, layer, k - 1, front, last);
      parts := front + [last];
    }
  }

  /** Those of a work item in the first `n` layers. */
  ghost predicate WorkIs(plan: Plan, w: Work, n: nat, parts: seq<seq<seq<Item>>>)
    requires plan.Usable() && n <= WORD32
  {
    |parts| == n && forall l :: 0 <= l < n ==> LayerIs(plan, w, l, |plan.ops|, parts[l])
  }

  function FlattenTwice<T>(parts: seq<seq<seq<T>>>): seq<T> {
    if parts == [] then [] else FlattenTwice(parts[..|parts| - 1]) + Flatten(parts[|parts| - 1])
  }

  lemma FlattenTwiceGrows<T>(parts: seq<seq<seq<T>>>, part: seq<seq<T>>)
    ensures FlattenTwice(parts + [part]) == FlattenTwice(parts) + Flatten(part)
  {
    assert (parts + [part])[..|parts|] == parts;
  }

  lemma WorkGrows(plan: Plan, w: Work, n: nat, parts: seq<seq<seq<Item>>>, part: seq<seq<Item>>)
    requires plan.Usable() && n < WORD32 && WorkIs(plan, w, n, parts) && LayerIs(plan, w, n, |plan.ops|, part)
    ensures WorkIs(plan, w, n + 1, parts + [part])
  {
  }

  lemma {:induction false} WorkIsNested(plan: Plan, w: Work, n: nat) returns (parts: seq<seq<seq<Item>>>)
    requires plan.Usable() && n <= WORD32
    ensures WorkIs(plan, w, n, parts) && Layers(plan, w, n) == FlattenTwice(parts)
    decreases n
  {
    if n == 0 {
      parts := [];
    } else {
      var before := WorkIsNested(plan, w, n - 1);
      var layer := LayerIsNested(plan, w, n - 1, |plan.ops|);
      FlattenTwiceGrows(before, layer);
      WorkGrows(plan, w, n - 1, before, layer);
      parts := before + [layer];
    }
  }

  /** The decoder layers that are emitted. */
  function EmittedLayers(plan: Plan): (n: nat)
    ensures n < WORD32
  {
    if plan.fastLayers && plan.macroGranularity then 1 else plan.layers
  }

  /** Those of the first `n` work items. */
  ghost predicate StageIs(plan: Plan, works: seq<Work>, n: nat, parts: seq<seq<seq<seq<Item>>>>)
    requires plan.Usable() && n <= |works|
  {
    |parts| == n && forall i :: 0 <= i < n ==> WorkIs(plan, works[i], EmittedLayers(plan), parts[i])
  }

  function FlattenThrice<T>(parts: seq<seq<seq<seq<T>>>>): seq<T> {
    if parts == [] then [] else FlattenThrice(parts[..|parts| - 1]) + FlattenTwice(parts[|parts| - 1])
  }

  lemma FlattenThriceGrows<T>(parts: seq<seq<seq<seq<T>>>>, part: seq<seq<seq<T>>>)
    ensures FlattenThrice(parts + [part]) == FlattenThrice(parts) + FlattenTwice(part)
  {
    assert (parts + [part])[..|parts|] == parts;
  }

  lemma StageGrows(plan: Plan, works: seq<Work>, n: nat, parts: seq<seq<seq<seq<Item>>>>, part: seq<seq<seq<Item>>>)
    requires plan.Usable() && n < |works| && StageIs(plan, works, n, parts) && WorkIs(plan, works[n], EmittedLayers(plan), part)
    ensures StageIs(plan, works, n + 1, parts + [part])
  {
  }

  lemma {:induction false} StageIsNested(plan: Plan, works: seq<Work>, n: nat) returns (parts: seq<seq<seq<seq<Item>>>>)
    requires plan.Usable() && n <= |works|
    ensures StageIs(plan, works, n, parts)
    ensures WorkStream(plan, works, plan.SimulatedLayers(), n) == FlattenThrice(parts)
    decreases n
  {
    if n == 0 {
      parts := [];
    } else {
      var before := StageIsNested(plan, works, n - 1);
      var work := WorkIsNested(plan, works[n - 1], plan.SimulatedLayers());
      FlattenThriceGrows(before, work);
      StageGrows(plan, works, n - 1, before, work);
      parts := before + [work];
    }
  }

  /** The transactions of a stage are, work item by work item, layer by layer and operation by
      operation, exactly the contributions of the operations. */
  lemma StreamIsContributions(plan: Plan, works: seq<Work>) returns (parts: seq<seq<seq<seq<Item>>>>)
    requires plan.Usable()
    ensures Stream(plan, works) == FlattenThrice(parts) && StageIs(plan, works, |works|, parts)
  {
    parts := StageIsNested(plan, works, |works|);
  }

  /** The template stage: for each work item as many copies of the command list as there are tiles. */
  lemma {:induction false} TemplateIsCopies(op: string, p: Profile, tiles: nat, works: seq<Work>, n: nat)
    returns (parts: seq<seq<Item>>)
    requires p.Complete() && n <= |works|
    ensures TemplateStream(op, p, tiles, works, n) == Flatten(parts) && |parts| == n
    ensures forall i :: 0 <= i < n ==> TemplatePart(op, p, tiles, works[i], parts[i])
  {
    if n == 0 {
      parts := [];
    } else {
      var before := TemplateIsCopies(op, p, tiles, works, n - 1);
      var part := Tiles(works[n - 1], 0, op, p, tiles);
      TileIsList(works[n - 1], 0, op, p, |p.order|);
      TilesAreCopies(works[n - 1], 0, op, p, tiles);
      FlattenGrows(before, part);
      parts := before + [part];
    }
  }

  ghost predicate TemplatePart(op: string, p: Profile, tiles: nat, w: Work, part: seq<Item>)
    requires p.Complete()
  {
    exists list :: IsCommandList(w, 0, op, p, |p.order|, list) && part == Copies(list, tiles)
  }
}
