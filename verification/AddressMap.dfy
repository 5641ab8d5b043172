/** Address-field layout and decoding: Config::SetAddressMapping and
    Config::AddressMapping (configuration.cc), LogBase2 (common.cc) and GetChannel
    (dram_system.cc). Low(h, w) is masking with Pow2(w) - 1. */
module AddressMap {
  import opened Basics
  import opened DramTypes
  import opened BitFields

  datatype Field = Ch | Ra | Bg | Ba | Ro | Co

  datatype Geometry = Geometry(
    busWidth: nat,
    burst: int,
    channels: int,
    ranks: int,
    bankgroups: int,
    banksPerGroup: int,
    rows: int,
    columns: int)
  {
    function RequestBytes(): int {
      busWidth / 8 * burst
    }

    function Size(f: Field): int {
      match f
      case Ch => channels
      case Ra => ranks
      case Bg => bankgroups
      case Ba => banksPerGroup
      case Ro => rows
      case Co => columns
    }

    /** The low column bits select within a burst and are not part of the address. */
    function Low(f: Field): nat {
      if f == Co then Log2(burst) else 0
    }

    /** field_widths; negative for the column when a burst is longer than a row. */
    function SignedWidth(f: Field): int {
      Log2(Size(f)) - Low(f)
    }

    /** A burst longer than a row makes the column mask a shift by a negative amount. */
    predicate Usable() {
      SignedWidth(Co) >= 0
    }

    function Width(f: Field): nat
      requires Usable()
    {
      SignedWidth(f)
    }

    predicate Inhabited() {
      forall f: Field :: Size(f) >= 1
    }
  }

  /** A lookup in field_widths. */
  function Recognise(token: string): Option<Field> {
    if token == "ch" then Some(Ch)
    else if token == "ra" then Some(Ra)
    else if token == "bg" then Some(Bg)
    else if token == "ba" then Some(Ba)
    else if token == "ro" then Some(Ro)
    else if token == "co" then Some(Co)
    else None
  }

  /** Two-character token `i` of the mapping string, counted from the right. */
  function Token(mapping: string, i: nat): string
    requires |mapping| == 12 && i < 6
  {
    mapping[10 - 2 * i..12 - 2 * i]
  }

  /** The fields a mapping string names, from the right; None is an unknown token. */
  function Reads(mapping: string): (ts: seq<Option<Field>>)
    requires |mapping| == 12
    ensures |ts| == 6
  {
    seq(6, i requires 0 <= i < 6 => Recognise(Token(mapping, i)))
  }

  /** Six tokens that name every field. */
  predicate Covers(ts: seq<Option<Field>>) {
    |ts| == 6 && forall f: Field :: Some(f) in ts
  }

  predicate Accepted(mapping: string) {
    |mapping| == 12 && Covers(Reads(mapping))
  }

  /** `order` lists the fields from the least significant one, each exactly once. */
  predicate Permutation(order: seq<Field>) {
    |order| == 6 && Distinct(order) && forall f: Field :: f in order
  }

  predicate Spells(ts: seq<Option<Field>>, order: seq<Field>) {
    |ts| == |order| == 6 && forall i :: 0 <= i < 6 ==> ts[i] == Some(order[i])
  }

  function Elements(s: seq<Option<Field>>): set<Option<Field>> {
    set x | x in s
  }

  lemma ElementsStep(s: seq<Option<Field>>)
    requires s != []
    ensures Elements(s) == Elements(s[..|s| - 1]) + {s[|s| - 1]}
  {
  }

  /** A sequence has at most as many values as positions, and as many only when no value
      repeats. */
  lemma {:induction false} Pigeonhole(s: seq<Option<Field>>)
    ensures |Elements(s)| <= |s|
    ensures |Elements(s)| == |s| ==> forall i, j :: 0 <= i < j < |s| ==> s[i] != s[j]
  {
    if s != [] {
      var n := |s| - 1;
      Pigeonhole(s[..n]);
      ElementsStep(s);
      if s[n] !in Elements(s[..n]) {
        forall i | 0 <= i < n
          ensures s[i] != s[n]
        {
          assert s[..n][i] in s[..n];
        }
      }
    }
  }

  function AllFields(): set<Option<Field>> {
    {Some(Ch), Some(Ra), Some(Bg), Some(Ba), Some(Ro), Some(Co)}
  }

  lemma SubsetOfSameSize(a: set<Option<Field>>, b: set<Option<Field>>)
    requires a <= b && |b| <= |a|
    ensures a == b
  {
    assert b == a + (b - a);
    assert b - a == {};
  }

  lemma SixFields(ts: seq<Option<Field>>)
    requires Covers(ts)
    ensures forall i :: 0 <= i < 6 ==> ts[i].Some?
    ensures forall i, j :: 0 <= i < j < 6 ==> ts[i] != ts[j]
  {
    Pigeonhole(ts);
    assert |AllFields()| == 6;
    assert AllFields() <= Elements(ts);
    SubsetOfSameSize(AllFields(), Elements(ts));
    forall i | 0 <= i < 6
      ensures ts[i].Some?
    {
      assert ts[i] in Elements(ts);
    }
  }

  /** Naming all six fields with six tokens leaves no room for anything else. */
  lemma CoverIsPermutation(ts: seq<Option<Field>>) returns (order: seq<Field>)
    requires Covers(ts)
    ensures Permutation(order) && Spells(ts, order)
  {
    SixFields(ts);
    order := seq(6, i requires 0 <= i < 6 && ts[i].Some? => ts[i].value);
    forall f: Field
      ensures f in order
    {
      assert Some(f) in ts;
      var i :| 0 <= i < 6 && ts[i] == Some(f);
      assert order[i] == f;
    }
  }

  lemma PermutationCovers(ts: seq<Option<Field>>, order: seq<Field>)
    requires Spells(ts, order) && forall f: Field :: f in order
    ensures Covers(ts)
  {
    forall f: Field
      ensures Some(f) in ts
    {
      assert f in order;
      var i :| 0 <= i < |order| && order[i] == f;
      assert ts[i] == Some(f);
    }
  }

  lemma SpellingIsUnique(ts: seq<Option<Field>>, order: seq<Field>, order': seq<Field>)
    requires Spells(ts, order) && Spells(ts, order')
    ensures order == order'
  {
  }

  // ---------- The layout ----------

  /** shift_bits, the *_pos fields and the *_mask fields of Config. */
  datatype Layout = Layout(shift: nat, pos: map<Field, int>, mask: map<Field, nat>)

  /** The process ends, or a mask is a shift by a negative amount, which C++ leaves undefined, or
      the fields are laid out. */
  datatype Outcome = Aborted | Undefined(pos: map<Field, int>) | Laid(layout: Layout)

  function Widths(g: Geometry, order: seq<Field>): (ws: seq<nat>)
    requires g.Usable()
    ensures |ws| == |order|
  {
    seq(|order|, i requires 0 <= i < |order| => g.Width(order[i]))
  }

  /** Each field starts where the fields to its right end. */
  ghost predicate LaidOut(g: Geometry, order: seq<Field>, l: Layout)
    requires g.Usable()
  {
    && Permutation(order)
    && l.shift == Log2(g.RequestBytes())
    && (forall f: Field :: f in l.pos && f in l.mask && l.pos[f] >= 0 && l.mask[f] == Pow2(g.Width(f)) - 1)
    && (forall i :: 0 <= i < 6 ==> l.pos[order[i]] == Start(Widths(g, order), i))
  }

  method LogBase2(powerOfTwo: int) returns (i: nat)
    ensures powerOfTwo <= 1 ==> i == 0
    ensures powerOfTwo >= 1 ==> Pow2(i) <= powerOfTwo < 2 * Pow2(i)
    ensures i == Log2(powerOfTwo)
  {
    i := 0;
    var n := powerOfTwo;
    while n > 1
      invariant i + Log2(n) == Log2(powerOfTwo)
      invariant powerOfTwo >= 1 ==> n >= 1
    {
      n := n / 2;
      i := i + 1;
    }
    if powerOfTwo >= 1 {
      Log2Bounds(powerOfTwo);
    }
  }

  method FieldWidths(g: Geometry) returns (w: map<Field, int>)
    ensures forall f: Field :: f in w && w[f] == g.SignedWidth(f)
  {
    var lowBits: int := LogBase2(g.burst);
    var ch := LogBase2(g.channels);
    var ra := LogBase2(g.ranks);
    var bg := LogBase2(g.bankgroups);
    var ba := LogBase2(g.banksPerGroup);
    var ro := LogBase2(g.rows);
    var co: int := LogBase2(g.columns);
    w := map[Ch := ch, Ra := ra, Bg := bg, Ba := ba, Ro := ro, Co := co - lowBits];
    AllWidths(g, w);
  }

  lemma AllWidths(g: Geometry, w: map<Field, int>)
    requires HasAll(w)
    requires w[Ch] == Log2(g.channels) && w[Ra] == Log2(g.ranks) && w[Bg] == Log2(g.bankgroups)
    requires w[Ba] == Log2(g.banksPerGroup) && w[Ro] == Log2(g.rows) && w[Co] == Log2(g.columns) - Log2(g.burst)
    ensures forall f: Field :: f in w && w[f] == g.SignedWidth(f)
  {
    forall f: Field
      ensures f in w && w[f] == g.SignedWidth(f)
    {
      match f
      case Ch =>
      case Ra =>
      case Bg =>
      case Ba =>
      case Ro =>
      case Co =>
    }
  }

  /** Cut the mapping into two-character tokens, left to right. */
  method Tokenise(mapping: string) returns (fields: seq<string>)
    requires |mapping| == 12
    ensures |fields| == 6 && forall i :: 0 <= i < 6 ==> fields[5 - i] == Token(mapping, i)
  {
    fields := [];
    var i := 0;
    while i < |mapping|
      invariant 0 <= i <= 12 && i == 2 * |fields|
      invariant forall k :: 0 <= k < |fields| ==> fields[k] == mapping[2 * k..2 * k + 2]
    {
      fields := fields + [mapping[i..i + 2]];
      i := i + 2;
    }
  }

  /** The width of the first `i` fields from the right. */
  function Position(g: Geometry, order: seq<Field>, i: nat): int
    requires i <= |order|
  {
    if i == 0 then 0 else Position(g, order, i - 1) + g.SignedWidth(order[i - 1])
  }

  lemma {:induction false} PositionPrefix(g: Geometry, order: seq<Field>, f: Field, i: nat)
    requires i <= |order|
    ensures Position(g, order + [f], i) == Position(g, order, i)
    decreases i
  {
    if i > 0 {
      PositionPrefix(g, order, f, i - 1);
    }
  }

  lemma {:induction false} PositionIsStart(g: Geometry, order: seq<Field>, i: nat)
    requires g.Usable() && i <= |order|
    ensures Position(g, order, i) == Start(Widths(g, order), i)
    decreases i
  {
    if i > 0 {
      PositionIsStart(g, order, i - 1);
      StartStep(Widths(g, order), i - 1);
    }
  }

  ghost predicate AssignedAt(g: Geometry, order: seq<Field>, fieldPos: map<Field, int>, i: nat)
    requires i < |order|
  {
    order[i] in fieldPos && fieldPos[order[i]] == Position(g, order, i)
  }

  /** The assignments made after walking over `order`. */
  ghost predicate Assigned(g: Geometry, order: seq<Field>, fieldPos: map<Field, int>) {
    && (forall f :: f in fieldPos <==> f in order)
    && (Distinct(order) ==> forall i :: 0 <= i < |order| ==> AssignedAt(g, order, fieldPos, i))
  }

  lemma AssignNext(g: Geometry, order: seq<Field>, f: Field, fieldPos: map<Field, int>)
    requires Assigned(g, order, fieldPos)
    ensures Position(g, order + [f], |order| + 1) == Position(g, order, |order|) + g.SignedWidth(f)
    ensures Assigned(g, order + [f], fieldPos[f := Position(g, order, |order|)])
  {
    var next, pos := order + [f], fieldPos[f := Position(g, order, |order|)];
    PositionPrefix(g, order, f, |order|);
    DistinctPrefix(order, f);
    forall i | Distinct(next) && 0 <= i < |next|
      ensures AssignedAt(g, next, pos, i)
    {
      if i < |order| {
        assert AssignedAt(g, order, fieldPos, i);
        PositionPrefix(g, order, f, i);
      }
    }
  }

  lemma DistinctPrefix(order: seq<Field>, f: Field)
    ensures Distinct(order + [f]) ==> Distinct(order) && f !in order
  {
    var next := order + [f];
    if Distinct(next) {
      forall i, j | 0 <= i < j < |order|
        ensures order[i] != order[j]
      {
        assert next[i] != next[j];
      }
      forall i | 0 <= i < |order|
        ensures order[i] != f
      {
        assert next[i] != next[|order|];
      }
    }
  }

  lemma RejectUnknown(ts: seq<Option<Field>>, i: nat)
    requires |ts| == 6 && i < 6 && ts[i].None?
    ensures !Covers(ts)
    ensures forall order :: !Spells(ts, order)
  {
    if Covers(ts) {
      SixFields(ts);
      assert false;
    }
  }

  lemma RejectMissing(ts: seq<Option<Field>>, order: seq<Field>, f: Field)
    requires Spells(ts, order) && f !in order
    ensures !Covers(ts)
    ensures forall o :: Permutation(o) ==> !Spells(ts, o)
  {
    assert Some(f) !in ts;
    forall o | Spells(ts, o)
      ensures o == order
    {
      SpellingIsUnique(ts, order, o);
    }
  }

  /** Walk the tokens from the right, giving each field the next free bits. */
  method PlaceFields(g: Geometry, tokens: seq<string>, width: map<Field, int>, ghost ts: seq<Option<Field>>)
    returns (r: Result<map<Field, int>>, ghost order: seq<Field>)
    requires |tokens| == |ts| == 6
    requires forall k :: 0 <= k < 6 ==> Recognise(tokens[k]) == ts[5 - k]
    requires forall f: Field :: f in width && width[f] == g.SignedWidth(f)
    ensures r.Ok? ==> Spells(ts, order) && Assigned(g, order, r.value)
    ensures r.Abort? ==> |order| < 6 && ts[|order|].None?
  {
    var fields := tokens;
    var fieldPos: map<Field, int> := map[];
    var pos := 0;
    order := [];
    while fields != []
      invariant |fields| + |order| == 6
      invariant forall k :: 0 <= k < |fields| ==> fields[k] == tokens[k]
      invariant forall i :: 0 <= i < |order| ==> ts[i] == Some(order[i])
      invariant pos == Position(g, order, |order|)
      invariant Assigned(g, order, fieldPos)
      decreases |fields|
    {
      var k := |fields| - 1;
      var known := Recognise(fields[k]);
      fields := fields[..k];
      if known.None? {
        return Abort, order;
      }
      var f := known.value;
      AssignNext(g, order, f, fieldPos);
      fieldPos := fieldPos[f := pos];
      pos := pos + width[f];
      order := order + [f];
    }
    r := Ok(fieldPos);
  }

  /** With every field placed, the order is a permutation and the only spelling. */
  lemma AllPlaced(g: Geometry, ts: seq<Option<Field>>, order: seq<Field>, pos: map<Field, int>)
    requires Spells(ts, order) && Assigned(g, order, pos) && forall f: Field :: f in pos
    ensures Covers(ts) && Permutation(order)
    ensures forall o :: Spells(ts, o) ==> o == order
  {
    assert forall f: Field :: f in pos ==> f in order;
    PermutationCovers(ts, order);
    var found := CoverIsPermutation(ts);
    SpellingIsUnique(ts, order, found);
    forall o | Spells(ts, o)
      ensures o == order
    {
      SpellingIsUnique(ts, order, o);
    }
  }

  lemma PlacedIsLaidOut(g: Geometry, order: seq<Field>, l: Layout)
    requires g.Usable() && Permutation(order) && Assigned(g, order, l.pos) && l.shift == Log2(g.RequestBytes())
    requires forall f: Field :: f in l.pos && f in l.mask && l.mask[f] == Pow2(g.Width(f)) - 1
    ensures LaidOut(g, order, l)
  {
    forall i | 0 <= i < 6
      ensures l.pos[order[i]] == Start(Widths(g, order), i)
    {
      assert AssignedAt(g, order, l.pos, i);
      PositionIsStart(g, order, i);
    }
    forall f: Field
      ensures l.pos[f] >= 0
    {
      assert f in order;
    }
  }

  predicate HasAll(pos: map<Field, int>) {
    Ch in pos && Ra in pos && Bg in pos && Ba in pos && Ro in pos && Co in pos
  }

  lemma HasAllFields(pos: map<Field, int>)
    requires HasAll(pos)
    ensures forall f: Field :: f in pos
  {
    forall f: Field
      ensures f in pos
    {
      match f
      case Ch =>
      case Ra =>
      case Bg =>
      case Ba =>
      case Ro =>
      case Co =>
    }
  }

  lemma LacksField(pos: map<Field, int>) returns (f: Field)
    requires !HasAll(pos)
    ensures f !in pos
  {
    f := if Ch !in pos then Ch else if Ra !in pos then Ra else if Bg !in pos then Bg
    else if Ba !in pos then Ba else if Ro !in pos then Ro else Co;
  }

  method Masks(g: Geometry, width: map<Field, int>) returns (mask: map<Field, nat>)
    requires g.Usable() && forall f: Field :: f in width && width[f] == g.SignedWidth(f)
    ensures forall f: Field :: f in mask && mask[f] == Pow2(g.Width(f)) - 1
  {
    mask := map f | f in width && width[f] >= 0 :: Pow2(width[f]) - 1;
    assert forall f: Field :: width[f] == g.Width(f);
  }

  /** What the outcome says of the fields in this order. */
  ghost predicate Places(g: Geometry, order: seq<Field>, r: Outcome) {
    match r
    case Aborted => false
    case Undefined(pos) => !g.Usable() && Permutation(order) && Assigned(g, order, pos)
    case Laid(layout) => g.Usable() && LaidOut(g, order, layout)
  }

  /** The part of SetAddressMapping after the length check. */
  method LayFields(g: Geometry, tokens: seq<string>, shift: nat, ghost ts: seq<Option<Field>>) returns (r: Outcome)
    requires |tokens| == |ts| == 6 && shift == Log2(g.RequestBytes())
    requires forall k :: 0 <= k < 6 ==> Recognise(tokens[k]) == ts[5 - k]
    ensures r.Aborted? <==> !Covers(ts)
    ensures forall order :: Permutation(order) && Spells(ts, order) ==> Places(g, order, r)
  {
    var width := FieldWidths(g);
    var placed, order := PlaceFields(g, tokens, width, ts);
    if placed.Abort? {
      RejectUnknown(ts, |order|);
      return Aborted;
    }
    if !HasAll(placed.value) {
      ghost var f := LacksField(placed.value);
      RejectMissing(ts, order, f);
      return Aborted;
    }
    HasAllFields(placed.value);
    AllPlaced(g, ts, order, placed.value);
    if width[Co] < 0 {
      return Undefined(placed.value);
    }
    var mask := Masks(g, width);
    r := Laid(Layout(shift, placed.value, mask));
    PlacedIsLaidOut(g, order, r.layout);
  }

  /** The process ends for exactly the strings that are not accepted. For an accepted one each
      field starts where the fields to its right end, and the masks are laid unless a burst is
      longer than a row. */
  method SetAddressMapping(g: Geometry, mapping: string) returns (r: Outcome)
    ensures r.Aborted? <==> !Accepted(mapping)
    ensures Accepted(mapping) ==>
              forall order :: Permutation(order) && Spells(Reads(mapping), order) ==> Places(g, order, r)
  {
    var bytes := g.RequestBytes();
    var shift := LogBase2(bytes);
    if |mapping| != 12 {
      return Aborted;
    }
    var fields := Tokenise(mapping);
    r := LayFields(g, fields, shift, Reads(mapping));
  }
}
