/** What a macro command's delay stands for: the device time of the micro-commands it replaces. */
module DraftDelay {
  import opened DraftWork

  lemma RoundIsNearest(x: real)
    ensures -0.5 <= Round(x) as real - x <= 0.5
    ensures Round(x) as real - x == 0.5 ==> x >= 0.0
    ensures Round(x) as real - x == -0.5 ==> x <= 0.0
  {
  }

  /** The device adds half a nanosecond to every PIM command. */
  function DeviceTime(s: seq<Item>): real {
    if s == [] then 0.0 else DeviceTime(s[..|s| - 1]) + Wait(s[|s| - 1])
  }

  function Wait(i: Item): real {
    if i.Target? then 0.0 else i.address as real + 0.5
  }

  /** A macro command takes its scaled total to within half a nanosecond exactly when that total
      is not negative, unless its delay does not fit 32 bits. */
  lemma MacroTimeIff(delay: nat, micro: nat, scale: real)
    requires MacroDelay(delay, micro, scale) < WORD32
    ensures var t := ScaledTotal(delay, micro, scale);
            -0.5 <= MacroAddress(delay, micro, scale) as real + 0.5 - t <= 0.5 <==> t >= 0.0
  {
    var t := ScaledTotal(delay, micro, scale);
    RoundIsNearest(t - 0.5);
  }

  lemma {:induction false} TimeAppends(a: seq<Item>, b: seq<Item>)
    ensures DeviceTime(a + b) == DeviceTime(a) + DeviceTime(b)
    decreases |b|
  {
    if b == [] {
      assert a + b == a;
    } else {
      assert (a + b)[..|a + b| - 1] == a + b[..|b| - 1];
      TimeAppends(a, b[..|b| - 1]);
    }
  }

  /** Delays that scaling and rounding leave as they are. */
  predicate Plain(p: Profile) {
    && p.Complete()
    && p.scale == 1.0
    && forall i :: 0 <= i < |p.order| ==> p.commands[p.order[i]].delay >= 1
  }

  /** The device time of micro-commands: their delays and their overhead. */
  function Ideal(delay: int, micro: int): real {
    delay as real + 0.5 * micro as real
  }

  lemma {:induction false} BurstsTime(w: Work, layer: uint32, op: string, name: string, dc: DelayCount, n: nat)
    requires n <= dc.count
    ensures DeviceTime(Bursts(w, layer, op, name, dc, dc.delay, n)) == Ideal(Times(dc.delay, n), n)
    decreases n
  {
    if n > 0 {
      var s := Bursts(w, layer, op, name, dc, dc.delay, n);
      assert s[..n - 1] == Bursts(w, layer, op, name, dc, dc.delay, n - 1);
      BurstsTime(w, layer, op, name, dc, n - 1);
    }
  }

  lemma PlainDelay(delay: nat)
    requires delay >= 1
    ensures ScaledDelay(delay, 1.0) == delay
  {
  }

  lemma {:induction false} TileTime(w: Work, layer: uint32, op: string, p: Profile, k: nat)
    requires Plain(p) && k <= |p.order|
    ensures DeviceTime(Tile(w, layer, op, p, k)) == Ideal(TileLoad(p, k, true), TileLoad(p, k, false))
    decreases k
  {
    if k > 0 {
      var dc := p.commands[p.order[k - 1]];
      var b := Bursts(w, layer, op, p.order[k - 1], dc, dc.delay, dc.count);
      PlainDelay(dc.delay);
      TileTime(w, layer, op, p, k - 1);
      BurstsTime(w, layer, op, p.order[k - 1], dc, dc.count);
      TimesIsProduct(1, dc.count);
      TimeAppends(Tile(w, layer, op, p, k - 1), b);
    }
  }

  lemma {:induction false} TilesTime(w: Work, layer: uint32, op: string, p: Profile, n: nat)
    requires Plain(p)
    ensures DeviceTime(Tiles(w, layer, op, p, n))
         == Ideal(Times(TileLoad(p, |p.order|, true), n), Times(TileLoad(p, |p.order|, false), n))
    decreases n
  {
    if n > 0 {
      TilesTime(w, layer, op, p, n - 1);
      TileTime(w, layer, op, p, |p.order|);
      TimeAppends(Tiles(w, layer, op, p, n - 1), Tile(w, layer, op, p, |p.order|));
    }
  }

  /** `n` times `t`. */
  function Repeated(t: real, n: nat): real {
    if n == 0 then 0.0 else Repeated(t, n - 1) + t
  }

  lemma {:induction false} IdealRepeated(a: nat, b: nat, n: nat)
    ensures Ideal(Times(a, n), Times(b, n)) == Repeated(Ideal(a, b), n)
  {
    if n > 0 {
      IdealRepeated(a, b, n - 1);
    }
  }

  /** The 64-bit sum is the true sum when that fits. */
  lemma MacroLoadFits(p: Profile, tiles: nat, layers: nat, timed: bool)
    requires p.Complete() && Times(Times(TileLoad(p, |p.order|, timed), tiles), layers) < WORD64
    ensures MacroLoad(p, |p.order|, tiles, layers, timed) == Times(Times(TileLoad(p, |p.order|, timed), tiles), layers)
  {
    MacroLoadIsScaled(p, |p.order|, tiles, layers, timed);
    MacroLoadBelow(p, |p.order|, tiles, layers, timed);
    SameAndSmall(MacroLoad(p, |p.order|, tiles, layers, timed), Times(Times(TileLoad(p, |p.order|, timed), tiles), layers));
  }

  lemma SameAndSmall(a: nat, b: nat)
    requires Same(a, b) && a < WORD64 && b < WORD64
    ensures a == b
  {
  }

  lemma MacroLoadBelow(p: Profile, k: nat, tiles: nat, layers: nat, timed: bool)
    requires p.Complete() && k <= |p.order|
    ensures MacroLoad(p, k, tiles, layers, timed) < WORD64
  {
  }

  /** The sums of a macro command fit their 64 bits and its delay fits 32. */
  predicate Fits(plan: Plan, w: Work, op: string)
    requires plan.Usable() && plan.Matches(op)
  {
    var p, n, m := plan.profiles[op], TileCount(plan, op, w), plan.Multiplier();
    var delay, micro := Times(Times(TileLoad(p, |p.order|, true), n), m), Times(Times(TileLoad(p, |p.order|, false), n), m);
    delay < WORD64 && micro < WORD64 && MacroDelay(delay, micro, p.scale) < WORD32
  }

  /** With unscaled delays, a macro command keeps the device busy for as long as all the
      micro-commands it replaces, over all the layers it stands for, to within half a nanosecond. */
  lemma MacroKeepsTime(plan: Plan, w: Work, layer: uint32, op: string)
    requires plan.Usable() && plan.Matches(op) && Plain(plan.profiles[op]) && Fits(plan, w, op)
    ensures var micros := Tiles(w, layer, op, plan.profiles[op], TileCount(plan, op, w));
            -0.5 <= Wait(MacroItem(plan, w, layer, op)) - Repeated(DeviceTime(micros), plan.Multiplier()) <= 0.5
  {
    var p, n, m := plan.profiles[op], TileCount(plan, op, w), plan.Multiplier();
    MacroLoadFits(p, n, m, true);
    MacroLoadFits(p, n, m, false);
    TilesTime(w, layer, op, p, n);
    IdealRepeated(Times(TileLoad(p, |p.order|, true), n), Times(TileLoad(p, |p.order|, false), n), m);
    MacroTimeIff(MacroLoad(p, |p.order|, n, m, true), MacroLoad(p, |p.order|, n, m, false), p.scale);
  }

  // ---------------------------------------------------------------- scaled delays

  /** No delay of the profile scales to less than half a nanosecond, which would count as one. */
  predicate Unclamped(p: Profile)
    requires p.Complete()
  {
    forall i :: 0 <= i < |p.order| ==> p.commands[p.order[i]].delay as real * p.scale >= 0.5
  }

  /** The most nanoseconds that rounding and the device's own half can add to a micro-command. */
  function Slack(p: Profile): real
    requires p.Complete()
  {
    if Unclamped(p) then 1.0 else 1.5
  }

  /** The time of `micro` commands differs from their scaled total by at most this much. */
  predicate Drifts(time: real, delay: nat, micro: nat, scale: real, slack: real) {
    var d := time - ScaledTotal(delay, micro, scale);
    -0.5 * scale * micro as real <= d <= (slack - 0.5 * scale) * micro as real
  }

  lemma Split(x: real, a: nat, b: nat)
    ensures x * (a + b) as real == x * a as real + x * b as real
  {
  }

  lemma DriftsAdd(t: real, delay: nat, micro: nat, t': real, delay': nat, micro': nat, scale: real, slack: real)
    requires Drifts(t, delay, micro, scale, slack) && Drifts(t', delay', micro', scale, slack)
    ensures Drifts(t + t', delay + delay', micro + micro', scale, slack)
  {
    Split(-0.5 * scale, micro, micro');
    Split(slack - 0.5 * scale, micro, micro');
    var a, b := delay as real + 0.5 * micro as real, delay' as real + 0.5 * micro' as real;
    assert (a + b) * scale == a * scale + b * scale;
  }

  lemma {:induction false} DriftsRepeat(t: real, delay: nat, micro: nat, scale: real, slack: real, n: nat)
    requires Drifts(t, delay, micro, scale, slack)
    ensures Drifts(Repeated(t, n), Times(delay, n), Times(micro, n), scale, slack)
  {
    if n > 0 {
      DriftsRepeat(t, delay, micro, scale, slack, n - 1);
      DriftsAdd(Repeated(t, n - 1), Times(delay, n - 1), Times(micro, n - 1), t, delay, micro, scale, slack);
    }
  }

  /** One micro-command: rounding moves its delay by half a nanosecond, or to one. */
  lemma CommandDrifts(delay: nat, scale: real)
    requires scale >= 0.0
    ensures Drifts(ScaledDelay(delay, scale) as real + 0.5, delay, 1, scale, 1.5)
    ensures delay as real * scale >= 0.5 ==> Drifts(ScaledDelay(delay, scale) as real + 0.5, delay, 1, scale, 1.0)
  {
    RoundIsNearest(delay as real * scale);
    assert (delay as real + 0.5) * scale == delay as real * scale + 0.5 * scale;
    assert delay as real * scale >= 0.0;
  }

  lemma {:induction false} BurstsDrift(w: Work, layer: uint32, op: string, name: string, dc: DelayCount, scale: real, slack: real, n: nat)
    requires n <= dc.count
    requires Drifts(ScaledDelay(dc.delay, scale) as real + 0.5, dc.delay, 1, scale, slack)
    ensures Drifts(DeviceTime(Bursts(w, layer, op, name, dc, ScaledDelay(dc.delay, scale), n)), Times(dc.delay, n), n, scale, slack)
    decreases n
  {
    var address := ScaledDelay(dc.delay, scale);
    if n > 0 {
      var s := Bursts(w, layer, op, name, dc, address, n);
      assert s[..n - 1] == Bursts(w, layer, op, name, dc, address, n - 1);
      BurstsDrift(w, layer, op, name, dc, scale, slack, n - 1);
      DriftsAdd(DeviceTime(s[..n - 1]), Times(dc.delay, n - 1), n - 1, address as real + 0.5, dc.delay, 1, scale, slack);
    }
  }

  lemma {:induction false} TileDrifts(w: Work, layer: uint32, op: string, p: Profile, k: nat)
    requires p.Complete() && p.scale >= 0.0 && k <= |p.order|
    ensures Drifts(DeviceTime(Tile(w, layer, op, p, k)), TileLoad(p, k, true), TileLoad(p, k, false), p.scale, Slack(p))
    decreases k
  {
    if k > 0 {
      var dc := p.commands[p.order[k - 1]];
      var b := Bursts(w, layer, op, p.order[k - 1], dc, ScaledDelay(dc.delay, p.scale), dc.count);
      CommandDrifts(dc.delay, p.scale);
      TileDrifts(w, layer, op, p, k - 1);
      BurstsDrift(w, layer, op, p.order[k - 1], dc, p.scale, Slack(p), dc.count);
      TimesIsProduct(1, dc.count);
      TimeAppends(Tile(w, layer, op, p, k - 1), b);
      DriftsAdd(DeviceTime(Tile(w, layer, op, p, k - 1)), TileLoad(p, k - 1, true), TileLoad(p, k - 1, false),
                DeviceTime(b), Times(dc.delay, dc.count), dc.count, p.scale, Slack(p));
    }
  }

  lemma {:induction false} TilesRepeat(w: Work, layer: uint32, op: string, p: Profile, n: nat)
    requires p.Complete()
    ensures DeviceTime(Tiles(w, layer, op, p, n)) == Repeated(DeviceTime(Tile(w, layer, op, p, |p.order|)), n)
    decreases n
  {
    if n > 0 {
      TilesRepeat(w, layer, op, p, n - 1);
      TimeAppends(Tiles(w, layer, op, p, n - 1), Tile(w, layer, op, p, |p.order|));
    }
  }

  lemma AllDrift(w: Work, layer: uint32, op: string, p: Profile, n: nat, m: nat)
    requires p.Complete() && p.scale >= 0.0
    ensures Drifts(Repeated(DeviceTime(Tiles(w, layer, op, p, n)), m),
                   Times(Times(TileLoad(p, |p.order|, true), n), m), Times(Times(TileLoad(p, |p.order|, false), n), m),
                   p.scale, Slack(p))
  {
    var t, delay, micro := DeviceTime(Tile(w, layer, op, p, |p.order|)), TileLoad(p, |p.order|, true), TileLoad(p, |p.order|, false);
    TileDrifts(w, layer, op, p, |p.order|);
    TilesRepeat(w, layer, op, p, n);
    DriftsRepeat(t, delay, micro, p.scale, Slack(p), n);
    DriftsRepeat(Repeated(t, n), Times(delay, n), Times(micro, n), p.scale, Slack(p), m);
  }

  /** `time` exceeds the device time of `item` by no more than the micro-commands can drift. */
  predicate Exceeds(time: real, item: Item, micro: nat, scale: real, slack: real) {
    -0.5 * scale * micro as real - 0.5 <= time - Wait(item) <= (slack - 0.5 * scale) * micro as real + 0.5
  }

  lemma MacroDrift(time: real, item: Item, delay: nat, micro: nat, scale: real, slack: real)
    requires Drifts(time, delay, micro, scale, slack) && scale >= 0.0 && MacroDelay(delay, micro, scale) < WORD32
    requires item.Macro? && item.address == MacroAddress(delay, micro, scale)
    ensures Exceeds(time, item, micro, scale, slack)
  {
    var total := delay as real + 0.5 * micro as real;
    assert total >= 0.0;
    assert total * scale >= 0.0;
    MacroTimeIff(delay, micro, scale);
  }

  /** How many micro-commands a macro command replaces. */
  function Commands(plan: Plan, w: Work, op: string): nat
    requires plan.Usable() && plan.Matches(op)
  {
    var p := plan.profiles[op];
    Times(Times(TileLoad(p, |p.order|, false), TileCount(plan, op, w)), plan.Multiplier())
  }

  lemma MacroAddressIs(plan: Plan, w: Work, layer: uint32, op: string) returns (delay: nat)
    requires plan.Usable() && plan.Matches(op) && Fits(plan, w, op)
    ensures var p := plan.profiles[op];
            && delay == Times(Times(TileLoad(p, |p.order|, true), TileCount(plan, op, w)), plan.Multiplier())
            && MacroItem(plan, w, layer, op).Macro?
            && MacroItem(plan, w, layer, op).address == MacroAddress(delay, Commands(plan, w, op), p.scale)
            && MacroDelay(delay, Commands(plan, w, op), p.scale) < WORD32
  {
    var p, n, m := plan.profiles[op], TileCount(plan, op, w), plan.Multiplier();
    delay := MacroLoad(p, |p.order|, n, m, true);
    MacroLoadFits(p, n, m, true);
    MacroLoadFits(p, n, m, false);
  }

  /** With any scale, the micro-commands keep the device busy at least for the macro command's time
      less half of the scale for each of them, and at most for that time and one nanosecond, or one
      and a half, less half of the scale for each of them; in both cases to within half a
      nanosecond. */
  lemma ScaledMacroTime(plan: Plan, w: Work, layer: uint32, op: string)
    requires plan.Usable() && plan.Matches(op) && plan.profiles[op].scale >= 0.0 && Fits(plan, w, op)
    ensures var p := plan.profiles[op];
            Exceeds(Repeated(DeviceTime(Tiles(w, layer, op, p, TileCount(plan, op, w))), plan.Multiplier()),
                    MacroItem(plan, w, layer, op), Commands(plan, w, op), p.scale, Slack(p))
  {
    var p, n, m := plan.profiles[op], TileCount(plan, op, w), plan.Multiplier();
    var delay := MacroAddressIs(plan, w, layer, op);
    AllDrift(w, layer, op, p, n, m);
    MacroDrift(Repeated(DeviceTime(Tiles(w, layer, op, p, n)), m), MacroItem(plan, w, layer, op), delay, Commands(plan, w, op),
               p.scale, Slack(p));
  }
}
