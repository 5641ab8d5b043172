/** Decoding with a layout: range, round trips, and when every cell can be reached. */
module AddressDecode {
  import opened Arithmetic
  import opened DramTypes
  import opened BitFields
  import opened AddressMap

  /** Bitwise and. */
  function And(h: nat, m: nat): nat {
    if m == 0 then 0 else 2 * And(h / 2, m / 2) + (if h % 2 == 1 && m % 2 == 1 then 1 else 0)
  }

  lemma {:induction false} MaskIsLow(h: nat, n: nat)
    ensures And(h, Pow2(n) - 1) == Low(h, n)
    decreases n
  {
    if n > 0 {
      MaskIsLow(h / 2, n - 1);
      assert (Pow2(n) - 1) / 2 == Pow2(n - 1) - 1;
    }
  }

  predicate Complete(l: Layout) {
    HasAll(l.pos) && HasAll(l.mask) && forall f: Field :: f in l.pos ==> l.pos[f] >= 0
  }

  function Select(l: Layout, hexAddr: nat, f: Field): nat
    requires f in l.pos && f in l.mask && l.pos[f] >= 0
  {
    And(Shift(Shift(hexAddr, l.shift), l.pos[f]), l.mask[f])
  }

  function AddressMapping(l: Layout, hexAddr: nat): Address
    requires Complete(l)
  {
    Address(Select(l, hexAddr, Ch), Select(l, hexAddr, Ra), Select(l, hexAddr, Bg),
            Select(l, hexAddr, Ba), Select(l, hexAddr, Ro), Select(l, hexAddr, Co))
  }

  /** The controller a request is routed to is the channel of its decoded address. */
  function GetChannel(l: Layout, hexAddr: nat): (channel: int)
    requires Complete(l)
    ensures channel == AddressMapping(l, hexAddr).channel
  {
    And(Shift(Shift(hexAddr, l.shift), l.pos[Ch]), l.mask[Ch])
  }

  function Coordinate(a: Address, f: Field): int {
    match f
    case Ch => a.channel
    case Ra => a.rank
    case Bg => a.bankgroup
    case Ba => a.bank
    case Ro => a.row
    case Co => a.column
  }

  lemma SameCoordinates(a: Address, b: Address)
    requires forall f: Field :: Coordinate(a, f) == Coordinate(b, f)
    ensures a == b
  {
    assert Coordinate(a, Ch) == Coordinate(b, Ch);
    assert Coordinate(a, Ra) == Coordinate(b, Ra);
    assert Coordinate(a, Bg) == Coordinate(b, Bg);
    assert Coordinate(a, Ba) == Coordinate(b, Ba);
    assert Coordinate(a, Ro) == Coordinate(b, Ro);
    assert Coordinate(a, Co) == Coordinate(b, Co);
  }

  lemma SelectIsCoordinate(l: Layout, hexAddr: nat, f: Field)
    requires Complete(l) && f in l.pos && f in l.mask
    ensures Coordinate(AddressMapping(l, hexAddr), f) == Select(l, hexAddr, f)
  {
  }

  // ---------- The fields tile the address ----------

  lemma {:induction false} FindField(ws: seq<nat>, bit: nat, n: nat) returns (i: nat)
    requires n <= |ws| && bit < Start(ws, n)
    ensures i < n && Start(ws, i) <= bit < Start(ws, i + 1)
    decreases n
  {
    if n == 0 {
      assert false;
    } else {
      i := n - 1;
      if bit < Start(ws, n - 1) {
        i := FindField(ws, bit, n - 1);
      }
    }
  }

  predicate Owns(g: Geometry, l: Layout, f: Field, bit: nat)
    requires g.Usable() && f in l.pos
  {
    l.pos[f] <= bit < l.pos[f] + g.Width(f)
  }

  lemma OwnsAt(g: Geometry, order: seq<Field>, l: Layout, i: nat, bit: nat)
    requires g.Usable() && LaidOut(g, order, l) && i < 6
    ensures Owns(g, l, order[i], bit) <==> Start(Widths(g, order), i) <= bit < Start(Widths(g, order), i + 1)
  {
    StartStep(Widths(g, order), i);
  }

  /** Every bit below the total width belongs to exactly one field, and no field reaches
      beyond it: the ranges are disjoint and leave no gap. */
  lemma FieldsTile(g: Geometry, order: seq<Field>, l: Layout, bit: nat)
    requires g.Usable() && LaidOut(g, order, l)
    ensures bit < Total(Widths(g, order)) <==> exists f: Field :: Owns(g, l, f, bit)
    ensures forall f: Field, f': Field :: Owns(g, l, f, bit) && Owns(g, l, f', bit) ==> f == f'
  {
    var ws := Widths(g, order);
    StartOfAll(ws);
    if bit < Total(ws) {
      var i := FindField(ws, bit, 6);
      OwnsAt(g, order, l, i, bit);
    }
    forall f: Field, f': Field | Owns(g, l, f, bit) && Owns(g, l, f', bit)
      ensures f == f' && bit < Total(ws)
    {
      assert f in order && f' in order;
      var i :| 0 <= i < 6 && order[i] == f;
      var j :| 0 <= j < 6 && order[j] == f';
      OwnerIsUnique(g, order, l, i, j, bit);
    }
  }

  lemma OwnerIsUnique(g: Geometry, order: seq<Field>, l: Layout, i: nat, j: nat, bit: nat)
    requires g.Usable() && LaidOut(g, order, l) && i < 6 && j < 6
    requires Owns(g, l, order[i], bit) && Owns(g, l, order[j], bit)
    ensures i == j && bit < Total(Widths(g, order))
  {
    var ws := Widths(g, order);
    OwnsAt(g, order, l, i, bit);
    OwnsAt(g, order, l, j, bit);
    StartOfAll(ws);
    StartMonotone(ws, i + 1, 6);
    if i < j {
      StartMonotone(ws, i + 1, j);
    } else if j < i {
      StartMonotone(ws, j + 1, i);
    }
  }

  // ---------- Digits ----------

  /** A decoded coordinate is the digit at its field's place. */
  lemma CoordinateIsDigit(g: Geometry, order: seq<Field>, l: Layout, hexAddr: nat, i: nat)
    requires g.Usable() && LaidOut(g, order, l) && i < 6
    ensures Coordinate(AddressMapping(l, hexAddr), order[i]) == Split(Shift(hexAddr, l.shift), Widths(g, order))[i]
  {
    var h := Shift(hexAddr, l.shift);
    SelectIsCoordinate(l, hexAddr, order[i]);
    MaskIsLow(Shift(h, l.pos[order[i]]), g.Width(order[i]));
    SplitAt(h, Widths(g, order), i);
  }

  lemma CoordinateFits(g: Geometry, order: seq<Field>, l: Layout, hexAddr: nat, f: Field)
    requires g.Usable() && LaidOut(g, order, l)
    ensures 0 <= Coordinate(AddressMapping(l, hexAddr), f) < Pow2(g.Width(f))
  {
    SelectIsCoordinate(l, hexAddr, f);
    var shifted, w := Shift(Shift(hexAddr, l.shift), l.pos[f]), g.Width(f);
    MaskIsLow(shifted, w);
    assert Select(l, hexAddr, f) == Low(shifted, w);
  }

  /** Coordinates a field can hold: columns are counted in bursts. */
  function Slots(g: Geometry, f: Field): int {
    g.Size(f) / Pow2(g.Low(f))
  }

  predicate Cell(g: Geometry, a: Address) {
    forall f: Field :: 0 <= Coordinate(a, f) < Slots(g, f)
  }

  lemma QuotientAtLeast(n: int, p: int, d: int)
    requires d > 0 && p * d <= n
    ensures p <= n / d
  {
    var q, r := n / d, n % d;
    assert n == q * d + r;
    if q < p {
      MulMonotone(q + 1, p, d);
      Distribute(q, 1, d);
      assert false;
    }
  }

  lemma WidthBelowSlots(g: Geometry, f: Field)
    requires g.Usable() && g.Size(f) >= 1
    ensures Pow2(g.Width(f)) <= Slots(g, f)
  {
    Log2Bounds(g.Size(f));
    Pow2Adds(g.Low(f), g.Width(f));
    QuotientAtLeast(g.Size(f), Pow2(g.Width(f)), Pow2(g.Low(f)));
  }

  /** Decoding any address lands inside the geometry, power of two or not. */
  lemma DecodedIsCell(g: Geometry, order: seq<Field>, l: Layout, hexAddr: nat)
    requires g.Usable() && g.Inhabited() && LaidOut(g, order, l)
    ensures Cell(g, AddressMapping(l, hexAddr))
  {
    forall f: Field
      ensures 0 <= Coordinate(AddressMapping(l, hexAddr), f) < Slots(g, f)
    {
      CoordinateFits(g, order, l, hexAddr, f);
      WidthBelowSlots(g, f);
    }
  }

  // ---------- Round trips ----------

  predicate Fits(g: Geometry, a: Address)
    requires g.Usable()
  {
    forall f: Field :: 0 <= Coordinate(a, f) < Pow2(g.Width(f))
  }

  function Coordinates(g: Geometry, order: seq<Field>, a: Address): (ds: seq<nat>)
    requires g.Usable() && Fits(g, a)
    ensures |ds| == |order|
  {
    seq(|order|, i requires 0 <= i < |order| && Coordinate(a, order[i]) >= 0 => Coordinate(a, order[i]))
  }

  /** The request-aligned address of a cell. */
  function Encode(g: Geometry, order: seq<Field>, l: Layout, a: Address): nat
    requires g.Usable() && Fits(g, a)
  {
    Join(Coordinates(g, order, a), Widths(g, order)) * Pow2(l.shift)
  }

  function Capacity(g: Geometry, order: seq<Field>, l: Layout): nat
    requires g.Usable()
  {
    Pow2(Total(Widths(g, order))) * Pow2(l.shift)
  }

  predicate Aligned(l: Layout, hexAddr: nat) {
    Low(hexAddr, l.shift) == 0
  }

  lemma ShiftAligned(h: nat, n: nat)
    ensures Shift(h * Pow2(n), n) == h && Low(h * Pow2(n), n) == 0
  {
    ShiftIsDivision(h * Pow2(n), n);
    Digits(h, 0, Pow2(n));
  }

  lemma DecodeEncode(g: Geometry, order: seq<Field>, l: Layout, a: Address)
    requires g.Usable() && LaidOut(g, order, l) && Fits(g, a)
    ensures Encode(g, order, l, a) < Capacity(g, order, l) && Aligned(l, Encode(g, order, l, a))
    ensures AddressMapping(l, Encode(g, order, l, a)) == a
  {
    var ds, ws := Coordinates(g, order, a), Widths(g, order);
    var hexAddr := Encode(g, order, l, a);
    assert InRange(ds, ws);
    JoinBelow(ds, ws);
    DigitBelow(Join(ds, ws), Pow2(Total(ws)), 0, Pow2(l.shift));
    ShiftAligned(Join(ds, ws), l.shift);
    SplitJoin(ds, ws);
    forall f: Field
      ensures Coordinate(AddressMapping(l, hexAddr), f) == Coordinate(a, f)
    {
      assert f in order;
      var i :| 0 <= i < 6 && order[i] == f;
      CoordinateIsDigit(g, order, l, hexAddr, i);
    }
    SameCoordinates(AddressMapping(l, hexAddr), a);
  }

  lemma DecodedFits(g: Geometry, order: seq<Field>, l: Layout, hexAddr: nat)
    requires g.Usable() && LaidOut(g, order, l)
    ensures Fits(g, AddressMapping(l, hexAddr))
    ensures Coordinates(g, order, AddressMapping(l, hexAddr)) == Split(Shift(hexAddr, l.shift), Widths(g, order))
  {
    var a := AddressMapping(l, hexAddr);
    forall f: Field
      ensures 0 <= Coordinate(a, f) < Pow2(g.Width(f))
    {
      CoordinateFits(g, order, l, hexAddr, f);
    }
    forall i | 0 <= i < 6
      ensures Coordinates(g, order, a)[i] == Split(Shift(hexAddr, l.shift), Widths(g, order))[i]
    {
      CoordinateIsDigit(g, order, l, hexAddr, i);
    }
  }

  lemma BlockBelow(h: nat, n: nat, total: nat)
    requires h < Pow2(total) * Pow2(n)
    ensures Shift(h, n) < Pow2(total)
  {
    Pow2Adds(n, total);
    ShiftBelow(h, n, total);
  }

  lemma EncodeDecode(g: Geometry, order: seq<Field>, l: Layout, hexAddr: nat)
    requires g.Usable() && LaidOut(g, order, l)
    requires hexAddr < Capacity(g, order, l)
    ensures Fits(g, AddressMapping(l, hexAddr))
    ensures Encode(g, order, l, AddressMapping(l, hexAddr)) == hexAddr - Low(hexAddr, l.shift)
  {
    var ws := Widths(g, order);
    DecodedFits(g, order, l, hexAddr);
    BlockBelow(hexAddr, l.shift, Total(ws));
    JoinSplit(Shift(hexAddr, l.shift), ws);
    ShiftAndLow(hexAddr, l.shift);
  }

  /** Two addresses below the capacity decode alike exactly when they lie in the same
      request-sized block. */
  lemma SameCellIffSameBlock(g: Geometry, order: seq<Field>, l: Layout, a: nat, b: nat)
    requires g.Usable() && LaidOut(g, order, l)
    requires a < Capacity(g, order, l) && b < Capacity(g, order, l)
    ensures AddressMapping(l, a) == AddressMapping(l, b) <==> Shift(a, l.shift) == Shift(b, l.shift)
  {
    EncodeDecode(g, order, l, a);
    EncodeDecode(g, order, l, b);
    ShiftAndLow(a, l.shift);
    ShiftAndLow(b, l.shift);
    ShiftAligned(Shift(a, l.shift), l.shift);
    ShiftAligned(Shift(b, l.shift), l.shift);
  }

  // ---------- Reaching every cell ----------

  function Corner(f: Field, value: int): Address {
    match f
    case Ch => Address(value, 0, 0, 0, 0, 0)
    case Ra => Address(0, value, 0, 0, 0, 0)
    case Bg => Address(0, 0, value, 0, 0, 0)
    case Ba => Address(0, 0, 0, value, 0, 0)
    case Ro => Address(0, 0, 0, 0, value, 0)
    case Co => Address(0, 0, 0, 0, 0, value)
  }

  /** Each field's slots are exactly the values that its bits can hold. */
  predicate FullSlots(g: Geometry)
    requires g.Usable()
  {
    forall f: Field :: Slots(g, f) == Pow2(g.Width(f))
  }

  ghost predicate Reached(l: Layout, a: Address)
    requires Complete(l)
  {
    exists hexAddr: nat :: AddressMapping(l, hexAddr) == a
  }

  lemma CornerIsCell(g: Geometry, f: Field, value: int)
    requires g.Usable() && g.Inhabited() && 0 <= value < Slots(g, f)
    ensures Cell(g, Corner(f, value)) && Coordinate(Corner(f, value), f) == value
  {
    forall f': Field
      ensures 0 <= Coordinate(Corner(f, value), f') < Slots(g, f')
    {
      WidthBelowSlots(g, f');
    }
  }

  /** Every cell has an address exactly when every field's number of slots is two to its width. For
      all fields but the column, that says that the dimension is a power of two. */
  lemma EveryCellReachedIff(g: Geometry, order: seq<Field>, l: Layout)
    requires g.Usable() && g.Inhabited() && LaidOut(g, order, l)
    ensures (forall a :: Cell(g, a) ==> Reached(l, a)) <==> FullSlots(g)
  {
    if FullSlots(g) {
      forall a | Cell(g, a)
        ensures Reached(l, a)
      {
        DecodeEncode(g, order, l, a);
      }
    } else {
      var f: Field :| Slots(g, f) != Pow2(g.Width(f));
      WidthBelowSlots(g, f);
      var corner := Corner(f, Pow2(g.Width(f)));
      CornerIsCell(g, f, Pow2(g.Width(f)));
      forall hexAddr: nat
        ensures AddressMapping(l, hexAddr) != corner
      {
        CoordinateFits(g, order, l, hexAddr, f);
      }
    }
  }

  /** A configuration that decodes with an accepted layout is well formed, which is what
      the channel controller's theorems ask of it. */
  lemma MappedConfigIsWellFormed(g: Geometry, order: seq<Field>, l: Layout, c: Config)
    requires g.Usable() && g.Inhabited() && LaidOut(g, order, l)
    requires c.ranks == g.ranks && c.bankgroups == g.bankgroups && c.banksPerGroup == g.banksPerGroup
    requires forall a: nat :: c.decode(a) == AddressMapping(l, a)
    ensures c.WellFormed()
  {
    assert g.Size(Ra) >= 1 && g.Size(Bg) >= 1 && g.Size(Ba) >= 1;
    forall a: nat
      ensures c.HasBank(Command(Read, c.decode(a), a).Bank())
    {
      DecodedIsCell(g, order, l, a);
      BankFields(g, AddressMapping(l, a));
    }
  }

  lemma BankFields(g: Geometry, a: Address)
    requires Cell(g, a)
    ensures 0 <= a.rank < g.ranks && 0 <= a.bankgroup < g.bankgroups && 0 <= a.bank < g.banksPerGroup
  {
    assert 0 <= Coordinate(a, Ra) < Slots(g, Ra);
    assert 0 <= Coordinate(a, Bg) < Slots(g, Bg);
    assert 0 <= Coordinate(a, Ba) < Slots(g, Ba);
  }
}
