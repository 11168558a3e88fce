/** Field values, field arrays and field tables: the recursive part of the wire codec. */
module Fields {
  import opened Bytes
  import opened Primitives

  /** The non-recursive Go values that a table may hold. Floating-point numbers are their bit patterns;
      `Int` is Go's 64-bit `int`, and `Unsupported` is any Go type the codec does not know. */
  datatype Scalar =
    | Nil
    | Bool(b: bool)
    | Byte(octet: byte)
    | Int8(i8: int8)
    | Int16(i16: int16)
    | Int(i: int64)
    | Int32(i32: int32)
    | Int64(i64: int64)
    | Float32(bits32: uint32)
    | Float64(bits64: uint64)
    | Decimal(scale: byte, value: int32)
    | Str(s: bytes)
    | ByteArray(a: bytes)
    | Time(sec: int64, nano: nat)
    | Unsupported

  datatype Field = Leaf(v: Scalar) | Array(items: seq<Field>) | Table(m: map<bytes, Field>)

  type FieldTable = map<bytes, Field>

  /** A field value in which every table has been laid out in one iteration order of its map. */
  datatype Tree = LeafT(v: Scalar) | ArrayT(items: seq<Tree>) | TableT(entries: seq<Entry>)
  datatype Entry = Entry(key: bytes, val: Tree)

  /** No value of an unsupported type occurs anywhere inside. */
  predicate Supported(f: Field) {
    match f
    case Leaf(v) => v != Unsupported
    case Array(items) => forall i | 0 <= i < |items| :: Supported(items[i])
    case Table(m) => forall k | k in m :: Supported(m[k])
  }

  /** `t` is `f` with every map inside it ranged over in some order. */
  ghost predicate Orders(t: Tree, f: Field)
    decreases t
  {
    match t
    case LeafT(v) => f == Leaf(v)
    case ArrayT(items) =>
      && f.Array?
      && |items| == |f.items|
      && forall i | 0 <= i < |items| :: Orders(items[i], f.items[i])
    case TableT(entries) => f.Table? && OrdersTable(entries, f.m)
  }

  ghost predicate OrdersTable(entries: seq<Entry>, m: FieldTable)
    decreases entries
  {
    && (forall i, j | 0 <= i < j < |entries| :: entries[i].key != entries[j].key)
    && (forall i | 0 <= i < |entries| :: entries[i].key in m && Orders(entries[i].val, m[entries[i].key]))
    && (forall k | k in m :: exists i :: 0 <= i < |entries| && entries[i].key == k)
  }

  /** What a peer receives for a value: `int` narrows to int32 and times lose their fraction of a second. */
  function NormalScalar(v: Scalar): Scalar {
    match v
    case Int(i) =>
      Int32(Signed(Unsigned(i, 4), 4))
    case Time(sec, _) => Time(sec, 0)
    case _ => v
  }

  function Normal(f: Field): Field {
    match f
    case Leaf(v) => Leaf(NormalScalar(v))
    case Array(items) => Array(seq(|items|, i requires 0 <= i < |items| => Normal(items[i])))
    case Table(m) => Table(map k | k in m :: Normal(m[k]))
  }

  function NormalTable(m: FieldTable): FieldTable {
    map k | k in m :: Normal(m[k])
  }

  // ----- encoding -----

  predicate SupportedTree(t: Tree) {
    match t
    case LeafT(v) => v != Unsupported
    case ArrayT(items) => forall i | 0 <= i < |items| :: SupportedTree(items[i])
    case TableT(entries) => SupportedEntries(entries)
  }

  predicate SupportedEntries(entries: seq<Entry>) {
    forall i | 0 <= i < |entries| :: SupportedTree(entries[i].val)
  }

  function Tag(v: Scalar): byte
    requires v != Unsupported
  {
    (match v
     case Nil => 'V'
     case Bool(_) => 't'
     case Byte(_) => 'B'
     case Int8(_) => 'b'
     case Int16(_) => 's'
     case Int(_) => 'I'
     case Int32(_) => 'I'
     case Int64(_) => 'l'
     case Float32(_) => 'f'
     case Float64(_) => 'd'
     case Decimal(_, _) => 'D'
     case Str(_) => 'S'
     case ByteArray(_) => 'x'
     case Time(_, _) => 'T') as int
  }

  function ScalarPayload(v: Scalar): bytes
    requires v != Unsupported
  {
    match v
    case Nil => []
    case Bool(b) => [if b then 1 else 0]
    case Byte(n) => [n]
    case Int8(n) => BigEndian(Unsigned(n, 1), 1)
    case Int16(n) => BigEndian(Unsigned(n, 2), 2)
    case Int(n) => BigEndian(Unsigned(n, 4), 4)
    case Int32(n) => BigEndian(Unsigned(n, 4), 4)
    case Int64(n) => BigEndian(Unsigned(n, 8), 8)
    case Float32(n) => BigEndian(n, 4)
    case Float64(n) => BigEndian(n, 8)
    case Decimal(scale, value) => [scale] + BigEndian(Unsigned(value, 4), 4)
    case Str(s) => BigEndian(|s| % 0x1_0000_0000, 4) + s
    case ByteArray(s) => BigEndian(|s| % 0x1_0000_0000, 4) + s
    case Time(sec, _) => BigEndian(Unsigned(sec, 8), 8)
  }

  function EncodeTree(t: Tree): (r: bytes)
    requires SupportedTree(t)
    ensures |r| > 0
    decreases t, 0
  {
    match t
    case LeafT(v) => [Tag(v)] + ScalarPayload(v)
    case ArrayT(items) =>
      var body := EncodeItems(items);
      ['A' as int] + BigEndian(|body| % 0x1_0000_0000, 4) + body
    case TableT(entries) => ['F' as int] + EncodeTable(entries)
  }

  function EncodeItems(items: seq<Tree>): bytes
    requires forall i | 0 <= i < |items| :: SupportedTree(items[i])
    decreases items, 0
  {
    if items == [] then [] else EncodeTree(items[0]) + EncodeItems(items[1..])
  }

  function EncodeEntries(entries: seq<Entry>): bytes
    requires SupportedEntries(entries)
    decreases entries, 0
  {
    if entries == [] then []
    else Shortstr(entries[0].key) + EncodeTree(entries[0].val) + EncodeEntries(entries[1..])
  }

  function EncodeTable(entries: seq<Entry>): bytes
    requires SupportedEntries(entries)
    decreases entries, 1
  {
    Longstr(EncodeEntries(entries))
  }

  /** The size limits of the wire format: 255-octet names, 2^31 - 1 octets per string, byte array or
      table body, 2^32 - 1 octets per array body. */
  predicate Fits(t: Tree)
    requires SupportedTree(t)
    decreases t, 0
  {
    match t
    case LeafT(Str(s)) => |s| <= MAX_INT32
    case LeafT(ByteArray(s)) => |s| <= MAX_INT32
    case LeafT(_) => true
    case ArrayT(items) =>
      && (forall i | 0 <= i < |items| :: Fits(items[i]))
      && |EncodeItems(items)| < 0x1_0000_0000
    case TableT(entries) => FitsTable(entries)
  }

  predicate FitsTable(entries: seq<Entry>)
    requires SupportedEntries(entries)
    decreases entries, 1
  {
    && (forall i | 0 <= i < |entries| :: |entries[i].key| <= 0xFF && Fits(entries[i].val))
    && |EncodeEntries(entries)| <= MAX_INT32
  }

  // ----- decoding -----

  function DecodeScalar(tag: byte, data: bytes): (r: Read<Scalar>)
    ensures |r.rest| <= |data|
  {
    match tag as char
    case 't' => var (n, d) :- ReadUint(data, 1); Ok(Bool(n != 0), d)
    case 'B' => var (n, d) :- ReadUint(data, 1); Ok(Byte(n), d)
    case 'b' => var (n, d) :- ReadUint(data, 1); Ok(Int8(Signed(n, 1)), d)
    case 's' => var (n, d) :- ReadUint(data, 2); Ok(Int16(Signed(n, 2)), d)
    case 'I' => var (n, d) :- ReadUint(data, 4); Ok(Int32(Signed(n, 4)), d)
    case 'l' => var (n, d) :- ReadUint(data, 8); Ok(Int64(Signed(n, 8)), d)
    case 'f' => var (n, d) :- ReadUint(data, 4); Ok(Float32(n), d)
    case 'd' => var (n, d) :- ReadUint(data, 8); Ok(Float64(n), d)
    case 'D' =>
      var (scale, d) :- ReadUint(data, 1);
      var (n, d') :- ReadUint(d, 4);
      Ok(Decimal(scale, Signed(n, 4)), d')
    case 'S' => var (s, d) :- ReadLongstr(data); Ok(Str(s), d)
    case 'T' => var (n, d) :- ReadUint(data, 8); Ok(Time(Signed(n, 8), 0), d)
    case 'x' =>
      var (n, d) :- ReadUint(data, 4);
      if n > MAX_INT32 then Err(NegativeLength, d)
      else var (s, d') :- ReadFull(d, n); Ok(ByteArray(s), d')
    case 'V' => Ok(Nil, data)
    case _ => Err(Syntax, data)
  }

  function DecodeField(data: bytes): (r: Read<Field>)
    ensures r.Ok? ==> |r.rest| < |data|
    ensures |r.rest| <= |data|
    decreases |data|, 0
  {
    var (tag, d) :- ReadUint(data, 1);
    if tag == 'A' as int then
      var (items, rest) :- DecodeArray(d); Ok(Array(items), rest)
    else if tag == 'F' as int then
      var (m, rest) :- DecodeTable(d); Ok(Table(m), rest)
    else
      var (v, rest) :- DecodeScalar(tag, d); Ok(Leaf(v), rest)
  }

  /** readArray: a limited reader over the next `size` octets, read until a field hits end of input. */
  function DecodeArray(data: bytes): (r: Read<seq<Field>>)
    ensures |r.rest| <= |data|
    decreases |data|, 2
  {
    var (size, d) :- ReadUint(data, 4);
    var n := if size <= |d| then size else |d|;
    match DecodeItems(d[..n], [])
    case Ok(items, left) => Ok(items, left + d[n..])
    case Err(e, left) => Err(e, left + d[n..])
  }

  function DecodeItems(data: bytes, items: seq<Field>): (r: Read<seq<Field>>)
    ensures |r.rest| <= |data|
    decreases |data|, 1
  {
    match DecodeField(data)
    case Ok(f, rest) => DecodeItems(rest, items + [f])
    case Err(e, rest) => if e == EOF then Ok(items, rest) else Err(e, rest)
  }

  /** readTable: the body is a long string, read into a nested buffer until that is empty. */
  function DecodeTable(data: bytes): (r: Read<FieldTable>)
    ensures |r.rest| <= |data|
    decreases |data|, 2
  {
    var (body, rest) :- ReadLongstr(data);
    match DecodeEntries(body, map[])
    case Ok(m, _) => Ok(m, rest)
    case Err(e, _) => Err(e, rest)
  }

  function DecodeEntries(data: bytes, m: FieldTable): (r: Read<FieldTable>)
    ensures |r.rest| <= |data|
    decreases |data|, 1
  {
    if data == [] then Ok(m, []) else
    var (key, d) :- ReadShortstr(data);
    var (val, rest) :- DecodeField(d);
    DecodeEntries(rest, m[key := val])
  }
}
