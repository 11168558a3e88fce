/** The field codec is a round trip for every value and every iteration order of every map in it. */
module FieldTheorems {
  import opened Bytes
  import opened Primitives
  import opened Fields

  /** The value a decoder builds from `t`: array items in order, table entries inserted in order. */
  ghost function Received(t: Tree): Field
    decreases t, 0
  {
    match t
    case LeafT(v) => Leaf(NormalScalar(v))
    case ArrayT(items) => Array(ReceivedItems(items, []))
    case TableT(entries) => Table(ReceivedEntries(entries, map[]))
  }

  ghost function ReceivedItems(items: seq<Tree>, acc: seq<Field>): seq<Field>
    decreases items, 0
  {
    if items == [] then acc else ReceivedItems(items[1..], acc + [Received(items[0])])
  }

  ghost function ReceivedEntries(entries: seq<Entry>, acc: FieldTable): FieldTable
    decreases entries, 0
  {
    if entries == [] then acc
    else ReceivedEntries(entries[1..], acc[entries[0].key := Received(entries[0].val)])
  }

  // ----- decoding inverts encoding -----

  ghost predicate ScalarInverts(v: Scalar, rest: bytes)
    requires v != Unsupported
  {
    DecodeScalar(Tag(v), ScalarPayload(v) + rest) == Ok(NormalScalar(v), rest)
  }

  lemma {:induction false} ScalarRoundTrip(v: Scalar, rest: bytes)
    requires v != Unsupported && Fits(LeafT(v))
    ensures ScalarInverts(v, rest)
  {
    if v.Nil? || v.Bool? || v.Byte? {
      OctetScalar(v, rest);
    } else if v.Float32? || v.Float64? {
      FloatScalar(v, rest);
    } else if v.Int8? || v.Int16? || v.Int32? {
      NarrowScalar(v, rest);
    } else if v.Int? {
      IntScalar(v, rest);
    } else if v.Int64? || v.Time? {
      WideScalar(v, rest);
    } else if v.Decimal? {
      DecimalScalar(v, rest);
    } else if v.Str? {
      StrScalar(v, rest);
    } else {
      ByteArrayScalar(v, rest);
    }
  }

  lemma {:induction false} OctetScalar(v: Scalar, rest: bytes)
    requires v.Nil? || v.Bool? || v.Byte?
    ensures ScalarInverts(v, rest)
  {
    match v
    case Nil =>
      assert [] + rest == rest;
    case Bool(b) =>
      OctetRoundTrip(if b then 1 else 0, rest);
    case Byte(n) =>
      OctetRoundTrip(n, rest);
  }

  lemma {:induction false} FloatScalar(v: Scalar, rest: bytes)
    requires v.Float32? || v.Float64?
    ensures ScalarInverts(v, rest)
  {
    match v
    case Float32(n) =>
      ReadUintInverts(n, 4, rest);
    case Float64(n) =>
      ReadUintInverts(n, 8, rest);
  }

  lemma {:induction false} NarrowScalar(v: Scalar, rest: bytes)
    requires v.Int8? || v.Int16? || v.Int32?
    ensures ScalarInverts(v, rest)
  {
    match v
    case Int8(n) =>
      IntegerRoundTrip(n, 1, rest);
    case Int16(n) =>
      IntegerRoundTrip(n, 2, rest);
    case Int32(n) =>
      IntegerRoundTrip(n, 4, rest);
  }

  lemma {:induction false} IntScalar(v: Scalar, rest: bytes)
    requires v.Int?
    ensures ScalarInverts(v, rest)
  {
    ReadUintInverts(Unsigned(v.i, 4), 4, rest);
  }

  lemma {:induction false} WideScalar(v: Scalar, rest: bytes)
    requires v.Int64? || v.Time?
    ensures ScalarInverts(v, rest)
  {
    match v
    case Int64(n) =>
      IntegerRoundTrip(n, 8, rest);
    case Time(sec, _) =>
      IntegerRoundTrip(sec, 8, rest);
  }

  lemma {:induction false} DecimalScalar(v: Scalar, rest: bytes)
    requires v.Decimal?
    ensures ScalarInverts(v, rest)
  {
    var tail := BigEndian(Unsigned(v.value, 4), 4) + rest;
    assert ScalarPayload(v) + rest == [v.scale] + tail;
    OctetRoundTrip(v.scale, tail);
    IntegerRoundTrip(v.value, 4, rest);
  }

  lemma {:induction false} StrScalar(v: Scalar, rest: bytes)
    requires v.Str? && |v.s| <= MAX_INT32
    ensures ScalarInverts(v, rest)
  {
    LongstrPayload(v.s, rest);
  }

  lemma {:induction false} ByteArrayScalar(v: Scalar, rest: bytes)
    requires v.ByteArray? && |v.a| <= MAX_INT32
    ensures ScalarInverts(v, rest)
  {
    var s := v.a;
    SmallMod(|s|, 0x1_0000_0000);
    assert ScalarPayload(v) + rest == BigEndian(|s|, 4) + (s + rest);
    ReadUintInverts(|s|, 4, s + rest);
    assert (s + rest)[..|s|] == s && (s + rest)[|s|..] == rest;
  }

  lemma {:induction false} OctetRoundTrip(n: byte, rest: bytes)
    ensures ReadUint([n] + rest, 1) == Ok(n, rest)
  {
    assert BigEndian(n, 1) == BigEndian(n / 256, 0) + [n];
    ReadUintInverts(n, 1, rest);
  }

  lemma {:induction false} IntegerRoundTrip(n: int, w: nat, rest: bytes)
    requires Width(w)
    requires -(Limit(w) / 2) <= n < Limit(w) / 2
    ensures ReadUint(BigEndian(Unsigned(n, w), w) + rest, w) == Ok(Unsigned(n, w), rest)
    ensures Signed(Unsigned(n, w), w) == n
  {
    SignedRoundTrip(n, w);
    ReadUintInverts(Unsigned(n, w), w, rest);
  }

  lemma {:induction false} LongstrPayload(s: bytes, rest: bytes)
    requires |s| <= MAX_INT32
    ensures BigEndian(|s| % 0x1_0000_0000, 4) + s == Longstr(s)
    ensures ReadLongstr(Longstr(s) + rest) == Ok(s, rest)
  {
    SmallMod(|s|, 0x1_0000_0000);
    assert s[..|s|] == s;
    LongstrFaithful(s, rest);
  }

  lemma {:induction false} LeafRoundTrip(v: Scalar, rest: bytes)
    requires v != Unsupported && Fits(LeafT(v))
    ensures DecodeField([Tag(v)] + ScalarPayload(v) + rest) == Ok(Leaf(NormalScalar(v)), rest)
  {
    var tail := ScalarPayload(v) + rest;
    assert [Tag(v)] + ScalarPayload(v) + rest == [Tag(v)] + tail;
    OctetRoundTrip(Tag(v), tail);
    ScalarRoundTrip(v, rest);
  }

  /** Decoding the encoding of a value, whatever follows it, returns the value and leaves what follows. */
  lemma {:induction false} TreeRoundTrip(t: Tree, rest: bytes)
    requires SupportedTree(t) && Fits(t)
    ensures DecodeField(EncodeTree(t) + rest) == Ok(Received(t), rest)
    decreases t, 1
  {
    match t
    case LeafT(v) =>
      LeafRoundTrip(v, rest);
    case ArrayT(items) =>
      var body := EncodeItems(items);
      var size := BigEndian(|body| % 0x1_0000_0000, 4);
      assert EncodeTree(t) + rest == ['A' as int] + (size + body + rest);
      OctetRoundTrip('A' as int, size + body + rest);
      ItemsRoundTrip(items, []);
      ArrayRoundTrip(body, ReceivedItems(items, []), rest);
    case TableT(entries) =>
      var tail := EncodeTable(entries) + rest;
      assert EncodeTree(t) + rest == ['F' as int] + tail;
      OctetRoundTrip('F' as int, tail);
      TableRoundTrip(entries, rest);
  }

  lemma {:induction false} ArrayRoundTrip(body: bytes, items: seq<Field>, rest: bytes)
    requires |body| < 0x1_0000_0000
    requires DecodeItems(body, []) == Ok(items, [])
    ensures DecodeArray(BigEndian(|body| % 0x1_0000_0000, 4) + body + rest) == Ok(items, rest)
  {
    SmallMod(|body|, 0x1_0000_0000);
    assert BigEndian(|body|, 4) + body + rest == BigEndian(|body|, 4) + (body + rest);
    ReadUintInverts(|body|, 4, body + rest);
    assert (body + rest)[..|body|] == body && (body + rest)[|body|..] == rest;
    assert [] + rest == rest;
  }

  lemma {:induction false} ItemsRoundTrip(items: seq<Tree>, acc: seq<Field>)
    requires forall i | 0 <= i < |items| :: SupportedTree(items[i]) && Fits(items[i])
    ensures DecodeItems(EncodeItems(items), acc) == Ok(ReceivedItems(items, acc), [])
    decreases items, 1
  {
    if items == [] {
    } else {
      TreeRoundTrip(items[0], EncodeItems(items[1..]));
      ItemsRoundTrip(items[1..], acc + [Received(items[0])]);
    }
  }

  lemma {:induction false} EntriesRoundTrip(entries: seq<Entry>, acc: FieldTable)
    requires SupportedEntries(entries)
    requires forall i | 0 <= i < |entries| :: |entries[i].key| <= 0xFF && Fits(entries[i].val)
    ensures DecodeEntries(EncodeEntries(entries), acc) == Ok(ReceivedEntries(entries, acc), [])
    decreases entries, 1
  {
    if entries == [] {
    } else {
      var Entry(key, val) := entries[0];
      var tail := EncodeEntries(entries[1..]);
      assert EncodeEntries(entries) == Shortstr(key) + (EncodeTree(val) + tail);
      ShortstrFaithful(key, EncodeTree(val) + tail);
      TreeRoundTrip(val, tail);
      EntriesRoundTrip(entries[1..], acc[key := Received(val)]);
    }
  }

  lemma {:induction false} TableRoundTrip(entries: seq<Entry>, rest: bytes)
    requires SupportedEntries(entries) && FitsTable(entries)
    ensures DecodeTable(EncodeTable(entries) + rest) == Ok(ReceivedEntries(entries, map[]), rest)
    decreases entries, 2
  {
    LongstrPayload(EncodeEntries(entries), rest);
    EntriesRoundTrip(entries, map[]);
  }

  // ----- the order in which a map was ranged over does not matter -----

  /** Every iteration order of `f` is received as the same normalised value. */
  lemma {:induction false} OrderIrrelevant(t: Tree, f: Field)
    requires Orders(t, f)
    ensures Received(t) == Normal(f)
    decreases t, 1
  {
    match t
    case LeafT(v) =>
    case ArrayT(items) =>
      ItemsReceived(items, f.items, []);
    case TableT(entries) =>
      TableOrderIrrelevant(entries, f.m);
  }

  lemma {:induction false} ItemsReceived(items: seq<Tree>, fs: seq<Field>, acc: seq<Field>)
    requires |items| == |fs| && forall i | 0 <= i < |items| :: Orders(items[i], fs[i])
    ensures ReceivedItems(items, acc) == acc + seq(|fs|, i requires 0 <= i < |fs| => Normal(fs[i]))
    decreases items, 1
  {
    if items == [] {
    } else {
      OrderIrrelevant(items[0], fs[0]);
      ItemsReceived(items[1..], fs[1..], acc + [Received(items[0])]);
    }
  }

  lemma {:induction false} TableOrderIrrelevant(entries: seq<Entry>, m: FieldTable)
    requires OrdersTable(entries, m)
    ensures ReceivedEntries(entries, map[]) == NormalTable(m)
    decreases entries, 2
  {
    EntriesReceived(entries, m, map[]);
    var r := ReceivedEntries(entries, map[]);
    forall k | k in m
      ensures k in r
    {
      var i :| 0 <= i < |entries| && entries[i].key == k;
    }
  }

  /** Inserting entries with distinct keys: exactly those keys are added, each with its own value. */
  lemma {:induction false} EntriesReceived(entries: seq<Entry>, m: FieldTable, acc: FieldTable)
    requires forall i, j | 0 <= i < j < |entries| :: entries[i].key != entries[j].key
    requires forall i | 0 <= i < |entries| :: entries[i].key in m && Orders(entries[i].val, m[entries[i].key])
    requires forall i | 0 <= i < |entries| :: entries[i].key !in acc
    ensures var r := ReceivedEntries(entries, acc);
            && (forall i | 0 <= i < |entries| :: entries[i].key in r)
            && (forall k | k in acc :: k in r && r[k] == acc[k])
            && (forall k | k in r && k !in acc :: k in m && r[k] == Normal(m[k]))
    decreases entries, 1
  {
    if entries == [] {
    } else {
      var Entry(key, val) := entries[0];
      OrderIrrelevant(val, m[key]);
      var acc' := acc[key := Received(val)];
      EntriesReceived(entries[1..], m, acc');
      var r := ReceivedEntries(entries, acc);
      forall i | 0 <= i < |entries|
        ensures entries[i].key in r
      {
        if i > 0 {
          assert entries[i] == entries[1..][i - 1];
        }
      }
    }
  }

  /** Ordering a supported value yields an encodable tree. */
  lemma {:induction false} OrdersSupported(t: Tree, f: Field)
    requires Orders(t, f)
    ensures SupportedTree(t) <==> Supported(f)
    decreases t, 1
  {
    match t
    case LeafT(v) =>
    case ArrayT(items) =>
      forall i | 0 <= i < |items|
        ensures SupportedTree(items[i]) <==> Supported(f.items[i])
      {
        OrdersSupported(items[i], f.items[i]);
      }
    case TableT(entries) =>
      forall i | 0 <= i < |entries|
        ensures SupportedTree(entries[i].val) <==> Supported(f.m[entries[i].key])
      {
        OrdersSupported(entries[i].val, f.m[entries[i].key]);
      }
  }

  /** The main theorem of the field codec. */
  lemma {:induction false} FieldRoundTrip(f: Field, t: Tree, rest: bytes)
    requires Supported(f) && Orders(t, f)
    ensures SupportedTree(t)
    ensures Fits(t) ==> DecodeField(EncodeTree(t) + rest) == Ok(Normal(f), rest)
  {
    OrdersSupported(t, f);
    if Fits(t) {
      TreeRoundTrip(t, rest);
      OrderIrrelevant(t, f);
    }
  }
}
