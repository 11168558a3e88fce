/** Field values on the wire, octet by octet: what the functions of module Fields write and read, with every
    type octet, width and byte order written out. */
module FieldLayouts {
  import opened Bytes
  import opened Primitives
  import opened Octets
  import opened Fields
  import opened FieldTheorems

  // ----- strings -----

  lemma {:induction false} ShortstrOctets(s: bytes)
    requires |s| <= 0xFF
    ensures Shortstr(s) == Str8(s)
  {
    assert s[..|s|] == s;
  }

  lemma {:induction false} LongstrOctets(s: bytes)
    requires |s| < 0x1_0000_0000
    ensures Longstr(s) == Str32(s)
  {
    SmallMod(|s|, 0x1_0000_0000);
    BigEndian4(|s|);
    assert s[..|s|] == s;
  }

  // ----- scalars -----

  function Octet(c: char): byte
    requires c < 128 as char
  {
    c as int
  }

  /** The type octet and the value. */
  function ScalarOctets(v: Scalar): bytes
    requires v != Unsupported && Fits(LeafT(v))
  {
    match v
    case Nil => [Octet('V')]
    case Bool(b) => [Octet('t'), if b then 1 else 0]
    case Byte(n) => [Octet('B'), n]
    case Int8(n) => [Octet('b'), Complement(n, 0x100)]
    case Int16(n) => [Octet('s')] + U16(Complement(n, 0x1_0000))
    case Int(n) => [Octet('I')] + U32(n % 0x1_0000_0000)
    case Int32(n) => [Octet('I')] + U32(Complement(n, 0x1_0000_0000))
    case Int64(n) => [Octet('l')] + U64(Complement(n, 0x1_0000_0000_0000_0000))
    case Float32(bits) => [Octet('f')] + U32(bits)
    case Float64(bits) => [Octet('d')] + U64(bits)
    case Decimal(scale, value) => [Octet('D'), scale] + U32(Complement(value, 0x1_0000_0000))
    case Str(s) => [Octet('S')] + Str32(s)
    case ByteArray(s) => [Octet('x')] + Str32(s)
    case Time(sec, _) => [Octet('T')] + U64(Complement(sec, 0x1_0000_0000_0000_0000))
  }

  lemma {:induction false} UnsignedIsComplement(n: int, w: nat)
    requires Width(w) && -(Limit(w) / 2) <= n < Limit(w) / 2
    ensures Unsigned(n, w) == Complement(n, Limit(w))
  {
    if w == 1 {
    } else if w == 2 {
    } else if w == 4 {
    } else {
    }
  }

  lemma {:induction false} SmallScalar(v: Scalar)
    requires v.Nil? || v.Bool? || v.Byte? || v.Int8? || v.Int16? || v.Float32? || v.Float64?
    ensures EncodeTree(LeafT(v)) == ScalarOctets(v)
  {
    match v
    case Int8(n) =>
      UnsignedIsComplement(n, 1);
      BigEndian1(Unsigned(n, 1));
    case Int16(n) =>
      UnsignedIsComplement(n, 2);
      BigEndian2(Unsigned(n, 2));
    case Float32(n) =>
      BigEndian4(n);
    case Float64(n) =>
      BigEndian8(n);
    case _ =>
  }

  lemma {:induction false} LargeScalar(v: Scalar)
    requires v.Int? || v.Int32? || v.Int64? || v.Time? || v.Decimal?
    ensures EncodeTree(LeafT(v)) == ScalarOctets(v)
  {
    match v
    case Int(n) =>
      BigEndian4(Unsigned(n, 4));
    case Int32(n) =>
      UnsignedIsComplement(n, 4);
      BigEndian4(Unsigned(n, 4));
    case Int64(n) =>
      UnsignedIsComplement(n, 8);
      BigEndian8(Unsigned(n, 8));
    case Time(sec, _) =>
      UnsignedIsComplement(sec, 8);
      BigEndian8(Unsigned(sec, 8));
    case Decimal(scale, value) =>
      UnsignedIsComplement(value, 4);
      BigEndian4(Unsigned(value, 4));
      assert [Octet('D')] + ([scale] + U32(Unsigned(value, 4))) == [Octet('D'), scale] + U32(Unsigned(value, 4));
  }

  /** Every value that is not an array or a table is written as its type octet and its value. */
  lemma {:induction false} ScalarLayout(v: Scalar)
    requires v != Unsupported && Fits(LeafT(v))
    ensures EncodeTree(LeafT(v)) == ScalarOctets(v)
  {
    if v.Str? || v.ByteArray? {
      var s := if v.Str? then v.s else v.a;
      SmallMod(|s|, 0x1_0000_0000);
      BigEndian4(|s|);
    } else if v.Int? || v.Int32? || v.Int64? || v.Time? || v.Decimal? {
      LargeScalar(v);
    } else {
      SmallScalar(v);
    }
  }

  // ----- arrays and tables -----

  function FieldOctets(t: Tree): bytes
    requires SupportedTree(t) && Fits(t)
    decreases t, 0
  {
    match t
    case LeafT(v) => ScalarOctets(v)
    case ArrayT(items) =>
      ItemsLayout(items);
      [Octet('A')] + Str32(ItemsOctets(items))
    case TableT(entries) => [Octet('F')] + TableOctets(entries)
  }

  function ItemsOctets(items: seq<Tree>): bytes
    requires forall i | 0 <= i < |items| :: SupportedTree(items[i]) && Fits(items[i])
    decreases items, 0
  {
    if items == [] then [] else FieldOctets(items[0]) + ItemsOctets(items[1..])
  }

  function EntriesOctets(entries: seq<Entry>): bytes
    requires forall i | 0 <= i < |entries| ::
               SupportedTree(entries[i].val) && Fits(entries[i].val) && |entries[i].key| <= 0xFF
    decreases entries, 0
  {
    if entries == [] then []
    else Str8(entries[0].key) + FieldOctets(entries[0].val) + EntriesOctets(entries[1..])
  }

  /** Four octets of length, and then name and value of each entry. */
  function TableOctets(entries: seq<Entry>): bytes
    requires SupportedEntries(entries) && FitsTable(entries)
    decreases entries, 2
  {
    EntriesLayout(entries);
    Str32(EntriesOctets(entries))
  }

  lemma {:induction false} ItemsLayout(items: seq<Tree>)
    requires forall i | 0 <= i < |items| :: SupportedTree(items[i]) && Fits(items[i])
    ensures EncodeItems(items) == ItemsOctets(items)
    decreases items, 1
  {
    if items != [] {
      FieldLayout(items[0]);
      ItemsLayout(items[1..]);
    }
  }

  lemma {:induction false} EntriesLayout(entries: seq<Entry>)
    requires forall i | 0 <= i < |entries| ::
               SupportedTree(entries[i].val) && Fits(entries[i].val) && |entries[i].key| <= 0xFF
    ensures EncodeEntries(entries) == EntriesOctets(entries)
    decreases entries, 1
  {
    if entries != [] {
      FieldLayout(entries[0].val);
      ShortstrOctets(entries[0].key);
      EntriesLayout(entries[1..]);
    }
  }

  lemma {:induction false} TableLayout(entries: seq<Entry>)
    requires SupportedEntries(entries) && FitsTable(entries)
    ensures EncodeTable(entries) == TableOctets(entries)
    decreases entries, 3
  {
    EntriesLayout(entries);
    LongstrOctets(EntriesOctets(entries));
  }

  /** Every field value within the limits of the format is written as these octets. */
  lemma {:induction false} FieldLayout(t: Tree)
    requires SupportedTree(t) && Fits(t)
    ensures EncodeTree(t) == FieldOctets(t)
    decreases t, 1
  {
    match t
    case LeafT(v) =>
      ScalarLayout(v);
    case ArrayT(items) =>
      ItemsLayout(items);
      SmallMod(|EncodeItems(items)|, 0x1_0000_0000);
      BigEndian4(|EncodeItems(items)|);
    case TableT(entries) =>
      TableLayout(entries);
  }

  // ----- reading the octets -----

  /** The 32 bits that are left of an int. */
  function Narrow(n: int64): int32 {
    var low := n % 0x1_0000_0000;
    if low < 0x8000_0000 then low else low - 0x1_0000_0000
  }

  /** What a reader of the octets of a scalar gets. */
  lemma {:induction false} ScalarReads(v: Scalar, rest: bytes)
    requires v != Unsupported && Fits(LeafT(v))
    ensures DecodeField(ScalarOctets(v) + rest)
            == Ok(Leaf(if v.Int? then Int32(Narrow(v.i)) else if v.Time? then Time(v.sec, 0) else v), rest)
  {
    ScalarLayout(v);
    TreeRoundTrip(LeafT(v), rest);
  }

  /** What a reader of the octets of any value gets, whatever order its maps were ranged over in. */
  lemma {:induction false} FieldReads(f: Field, t: Tree, rest: bytes)
    requires Supported(f) && Orders(t, f) && SupportedTree(t) && Fits(t)
    ensures DecodeField(FieldOctets(t) + rest) == Ok(Normal(f), rest)
  {
    FieldLayout(t);
    FieldRoundTrip(f, t, rest);
  }

  /** An octet that stands for no type is an error. */
  lemma {:induction false} UnknownType(tag: byte, rest: bytes)
    requires tag as char !in "VtBbsIlfdDSxTAF"
    ensures DecodeField([tag] + rest) == Err(Syntax, rest)
  {
    BigEndian1(tag);
    ReadUintInverts(tag, 1, rest);
  }

  /** So is a byte array whose length has the top bit, on which the source panics. */
  lemma {:induction false} NegativeArray(n: uint32, rest: bytes)
    requires n >= 0x8000_0000
    ensures DecodeField([Octet('x')] + (U32(n) + rest)) == Err(NegativeLength, rest)
  {
    BigEndian4(n);
    BigEndian1(Octet('x'));
    ReadUintInverts(n, 4, rest);
    ReadUintInverts(Octet('x'), 1, U32(n) + rest);
  }

  /** An array that is cut inside an item is an error, unless it is cut right behind the type octet: then the
      reader takes the end of the input for the end of the array, and the item is gone. */
  lemma {:induction false} CutArray(n: uint32, k: nat, items: seq<Field>)
    requires k < 4
    ensures DecodeItems([Octet('I')] + U32(n)[..k], items) == if k == 0 then Ok(items, []) else Err(UnexpectedEOF, [])
  {
    var d := U32(n)[..k];
    BigEndian1(Octet('I'));
    ReadUintInverts(Octet('I'), 1, d);
    assert d == [] <==> k == 0;
    assert ReadFull(d, 4) == Err(if k == 0 then EOF else UnexpectedEOF, []);
    assert DecodeField([Octet('I')] + d) == Err(if k == 0 then EOF else UnexpectedEOF, []);
  }

  /** A table that ends behind a name is an error. */
  lemma {:induction false} CutTable(key: bytes, m: FieldTable)
    requires |key| <= 0xFF
    ensures DecodeEntries(Str8(key), m) == Err(EOF, [])
  {
    ShortstrOctets(key);
    ShortstrFaithful(key, []);
    assert Str8(key) + [] == Str8(key);
    assert ReadUint([], 1) == Err(EOF, []);
  }
}
