/** Mixed-radix digits whose radices are powers of two: the arithmetic of bit fields. */
module BitFields {
  import opened Arithmetic

  function Pow2(n: nat): (p: nat)
    ensures p >= 1
  {
    if n == 0 then 1 else 2 * Pow2(n - 1)
  }

  /** floor(log2(n)), and 0 for n <= 1 */
  function Log2(n: int): nat {
    if n <= 1 then 0 else 1 + Log2(n / 2)
  }

  lemma {:induction false} Log2Bounds(n: int)
    requires n >= 1
    ensures Pow2(Log2(n)) <= n < 2 * Pow2(Log2(n))
  {
    if n > 1 {
      Log2Bounds(n / 2);
    }
  }

  /** h >> n */
  function Shift(h: nat, n: nat): nat {
    if n == 0 then h else Shift(h / 2, n - 1)
  }

  /** The low `n` bits: h & (Pow2(n) - 1). */
  function Low(h: nat, n: nat): (d: nat)
    ensures d < Pow2(n)
  {
    if n == 0 then 0 else 2 * Low(h / 2, n - 1) + h % 2
  }

  lemma {:induction false} ShiftTwice(h: nat, m: nat, n: nat)
    ensures Shift(Shift(h, m), n) == Shift(h, m + n)
    decreases m
  {
    if m > 0 {
      ShiftTwice(h / 2, m - 1, n);
    }
  }

  lemma {:induction false} ShiftBelow(h: nat, m: nat, n: nat)
    requires h < Pow2(m + n)
    ensures Shift(h, m) < Pow2(n)
    decreases m
  {
    if m > 0 {
      ShiftBelow(h / 2, m - 1, n);
    }
  }

  /** Shifting and masking take a number apart. */
  lemma {:induction false} ShiftAndLow(h: nat, n: nat)
    ensures h == Shift(h, n) * Pow2(n) + Low(h, n)
    decreases n
  {
    if n > 0 {
      ShiftAndLow(h / 2, n - 1);
      Double(Shift(h / 2, n - 1), Pow2(n - 1));
    }
  }

  lemma Double(a: int, b: int)
    ensures a * (2 * b) == 2 * (a * b)
  {
  }

  lemma ShiftIsDivision(h: nat, n: nat)
    ensures Shift(h, n) == h / Pow2(n) && Low(h, n) == h % Pow2(n)
  {
    ShiftAndLow(h, n);
    Digits(Shift(h, n), Low(h, n), Pow2(n));
  }

  /** Width of the fields from the least significant one up. */
  function Total(ws: seq<nat>): nat {
    if ws == [] then 0 else ws[0] + Total(ws[1..])
  }

  /** First bit of field `i`. */
  function Start(ws: seq<nat>, i: nat): nat
    requires i <= |ws|
  {
    if i == 0 then 0 else ws[0] + Start(ws[1..], i - 1)
  }

  function Split(h: nat, ws: seq<nat>): (ds: seq<nat>)
    ensures |ds| == |ws|
    decreases |ws|
  {
    if ws == [] then [] else [Low(h, ws[0])] + Split(Shift(h, ws[0]), ws[1..])
  }

  function Join(ds: seq<nat>, ws: seq<nat>): nat
    requires |ds| == |ws|
  {
    if ws == [] then 0 else Join(ds[1..], ws[1..]) * Pow2(ws[0]) + ds[0]
  }

  predicate InRange(ds: seq<nat>, ws: seq<nat>) {
    |ds| == |ws| && forall i :: 0 <= i < |ds| ==> ds[i] < Pow2(ws[i])
  }

  lemma {:induction false} StartStep(ws: seq<nat>, i: nat)
    requires i < |ws|
    ensures Start(ws, i + 1) == Start(ws, i) + ws[i]
  {
    if i > 0 {
      StartStep(ws[1..], i - 1);
    }
  }

  lemma {:induction false} StartOfAll(ws: seq<nat>)
    ensures Start(ws, |ws|) == Total(ws)
  {
    if ws != [] {
      StartOfAll(ws[1..]);
    }
  }

  lemma {:induction false} StartMonotone(ws: seq<nat>, i: nat, j: nat)
    requires i <= j <= |ws|
    ensures Start(ws, i) <= Start(ws, j)
  {
    if i < j {
      StartMonotone(ws, i, j - 1);
      StartStep(ws, j - 1);
    }
  }

  /** A digit is the shifted and masked number. */
  lemma {:induction false} SplitAt(h: nat, ws: seq<nat>, i: nat)
    requires i < |ws|
    ensures Split(h, ws)[i] == Low(Shift(h, Start(ws, i)), ws[i])
    decreases i
  {
    if i > 0 {
      SplitAt(Shift(h, ws[0]), ws[1..], i - 1);
      ShiftTwice(h, ws[0], Start(ws[1..], i - 1));
    }
  }

  lemma {:induction false} Pow2Adds(m: nat, n: nat)
    ensures Pow2(m + n) == Pow2(n) * Pow2(m)
    decreases m
  {
    if m > 0 {
      Pow2Adds(m - 1, n);
      Double(Pow2(n), Pow2(m - 1));
    }
  }

  lemma {:induction false} JoinBelow(ds: seq<nat>, ws: seq<nat>)
    requires InRange(ds, ws)
    ensures Join(ds, ws) < Pow2(Total(ws))
    decreases |ws|
  {
    if ws != [] {
      JoinBelow(ds[1..], ws[1..]);
      DigitBelow(Join(ds[1..], ws[1..]), Pow2(Total(ws[1..])), ds[0], Pow2(ws[0]));
      Pow2Adds(ws[0], Total(ws[1..]));
    }
  }

  lemma {:induction false} SplitJoin(ds: seq<nat>, ws: seq<nat>)
    requires InRange(ds, ws)
    ensures Split(Join(ds, ws), ws) == ds
    decreases |ws|
  {
    if ws != [] {
      SplitJoin(ds[1..], ws[1..]);
      ShiftIsDivision(Join(ds, ws), ws[0]);
      Digits(Join(ds[1..], ws[1..]), ds[0], Pow2(ws[0]));
    }
  }

  lemma {:induction false} JoinSplit(h: nat, ws: seq<nat>)
    requires h < Pow2(Total(ws))
    ensures Join(Split(h, ws), ws) == h
    decreases |ws|
  {
    if ws != [] {
      ShiftBelow(h, ws[0], Total(ws[1..]));
      JoinSplit(Shift(h, ws[0]), ws[1..]);
      assert Split(h, ws)[1..] == Split(Shift(h, ws[0]), ws[1..]);
      ShiftAndLow(h, ws[0]);
    }
  }
}
