/** The run that loses a read decodes its addresses with a layout that a mapping string gives. */
module LostLayout {
  import opened Basics
  import opened DramTypes
  import opened BitFields
  import opened AddressMap
  import opened AddressDecode
  import LostRun

  function Mapping(): (m: string)
    ensures |m| == 12
    ensures m[0] == 'c' && m[1] == 'h' && m[2] == 'r' && m[3] == 'a' && m[4] == 'b' && m[5] == 'g'
    ensures m[6] == 'b' && m[7] == 'a' && m[8] == 'r' && m[9] == 'o' && m[10] == 'c' && m[11] == 'o'
  {
    "chrabgbaroco"
  }

  function Order(): (order: seq<Field>)
    ensures |order| == 6
    ensures order[0] == Co && order[1] == Ro && order[2] == Ba && order[3] == Bg && order[4] == Ra && order[5] == Ch
  {
    [Co, Ro, Ba, Bg, Ra, Ch]
  }

  /** One column bit; every other field has no bits and starts behind it. */
  function OneBit(): Layout {
    Layout(0, map[Ch := 1, Ra := 1, Bg := 1, Ba := 1, Ro := 1, Co := 0],
           map[Ch := 0, Ra := 0, Bg := 0, Ba := 0, Ro := 0, Co := 1])
  }

  lemma OrderIsPermutation()
    ensures Permutation(Order())
  {
    forall f: Field
      ensures f in Order()
    {
      match f
      case Ch =>
      case Ra =>
      case Bg =>
      case Ba =>
      case Ro =>
      case Co =>
    }
  }

  lemma TokenAt(m: string, i: nat)
    requires |m| == 12 && i < 6
    ensures Token(m, i) == [m[10 - 2 * i], m[11 - 2 * i]]
  {
  }

  lemma TokensAre()
    ensures Recognise(Token(Mapping(), 0)) == Some(Co) && Recognise(Token(Mapping(), 1)) == Some(Ro)
    ensures Recognise(Token(Mapping(), 2)) == Some(Ba) && Recognise(Token(Mapping(), 3)) == Some(Bg)
    ensures Recognise(Token(Mapping(), 4)) == Some(Ra) && Recognise(Token(Mapping(), 5)) == Some(Ch)
  {
    TokenAt(Mapping(), 0);
    TokenAt(Mapping(), 1);
    TokenAt(Mapping(), 2);
    TokenAt(Mapping(), 3);
    TokenAt(Mapping(), 4);
    TokenAt(Mapping(), 5);
  }

  lemma MappingIsAccepted()
    ensures Spells(Reads(Mapping()), Order()) && Accepted(Mapping())
  {
    TokensAre();
    OrderIsPermutation();
    PermutationCovers(Reads(Mapping()), Order());
  }

  /** One column bit and no bits otherwise; a request is one byte. */
  ghost predicate OneColumnBit(g: Geometry) {
    && g.Inhabited()
    && g.RequestBytes() == 1
    && forall f: Field :: g.SignedWidth(f) == if f == Co then 1 else 0
  }

  /** A bus of eight bits, bursts of one beat, and a row of two columns. */
  lemma TwoColumns() returns (g: Geometry)
    ensures OneColumnBit(g)
  {
    var two := 2;
    g := Geometry(8, 1, 1, 1, 1, 1, 1, two);
    assert Log2(two) == 1 + Log2(two / 2);
  }

  lemma WidthsAre(g: Geometry)
    requires OneColumnBit(g)
    ensures g.Usable()
    ensures forall i :: 0 <= i < 6 ==> Widths(g, Order())[i] == if i == 0 then 1 else 0
  {
    var order := Order();
    assert forall i :: 0 <= i < 6 ==> (order[i] == Co <==> i == 0);
  }

  /** The fields start at bit 0 and then all at bit 1. */
  lemma {:induction false} StartsAre(ws: seq<nat>, i: nat)
    requires i <= |ws| && forall k :: 0 <= k < |ws| ==> ws[k] == if k == 0 then 1 else 0
    ensures Start(ws, i) == if i == 0 then 0 else 1
    decreases i
  {
    if i > 0 {
      StartsAre(ws, i - 1);
      StartStep(ws, i - 1);
    }
  }

  lemma OneBitField(g: Geometry, f: Field)
    requires OneColumnBit(g)
    ensures g.Usable() && f in OneBit().pos && f in OneBit().mask
    ensures OneBit().pos[f] == (if f == Co then 0 else 1) && OneBit().mask[f] == Pow2(g.Width(f)) - 1
  {
    BitMasks();
    match f
    case Ch =>
    case Ra =>
    case Bg =>
    case Ba =>
    case Ro =>
    case Co =>
  }

  lemma OneBitIsLaidOut(g: Geometry)
    requires OneColumnBit(g)
    ensures g.Usable() && LaidOut(g, Order(), OneBit())
  {
    var order := Order();
    OrderIsPermutation();
    WidthsAre(g);
    forall f: Field
      ensures f in OneBit().pos && f in OneBit().mask && OneBit().pos[f] >= 0 && OneBit().mask[f] == Pow2(g.Width(f)) - 1
    {
      OneBitField(g, f);
    }
    forall i | 0 <= i < 6
      ensures OneBit().pos[order[i]] == Start(Widths(g, order), i)
    {
      StartsAre(Widths(g, order), i);
    }
  }

  lemma BitMasks()
    ensures Pow2(0) == 1 && Pow2(1) == 2
  {
  }

  lemma Decodes(a: nat)
    ensures AddressMapping(OneBit(), a) == Address(0, 0, 0, 0, 0, a % 2)
  {
    BitMasks();
    MaskIsLow(a, 1);
    assert Low(a, 1) == a % 2;
    assert Shift(a, 0) == a;
  }

  /** The run's decoding is that of an accepted mapping string for a row of two columns. */
  lemma PlaceIsMapped() returns (g: Geometry, mapping: string)
    ensures Accepted(mapping) && Spells(Reads(mapping), Order())
    ensures g.Usable() && g.Inhabited() && LaidOut(g, Order(), OneBit())
    ensures forall a: nat :: LostRun.OneBank().decode(a) == AddressMapping(OneBit(), a)
  {
    g := TwoColumns();
    mapping := Mapping();
    MappingIsAccepted();
    OneBitIsLaidOut(g);
    forall a: nat
      ensures LostRun.OneBank().decode(a) == AddressMapping(OneBit(), a)
    {
      Decodes(a);
    }
  }
}
