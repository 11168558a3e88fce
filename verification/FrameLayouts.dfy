/** Frames and content headers on the wire, octet by octet. */
module FrameLayouts {
  import opened Bytes
  import opened Primitives
  import opened Octets
  import opened Fields
  import opened Headers
  import F = Frames
  import FL = FieldLayouts
  import M = MethodFrames

  type LaidProperties = Properties<seq<Entry>>

  // ----- the property list -----

  function When(present: bool, octets: bytes): bytes {
    if present then octets else []
  }

  /** A timestamp that is not Go's zero time, 1 January of year 1. */
  predicate Stamped(at: Timestamp) {
    at.sec != -62135596800 || at.nano != 0
  }

  /** The properties that differ from their defaults, in the order of section 4.2.6.1 of AMQP 0-9-1. */
  function PropertyParts(p: LaidProperties): (parts: seq<bytes>)
    requires FitsProperties(p)
    ensures |parts| == 13
  {
    Fitting(p);
    [When(p.contentType != [], Str8(p.contentType)),
     When(p.contentEncoding != [], Str8(p.contentEncoding)),
     When(p.headers != [], FL.TableOctets(p.headers)),
     When(p.deliveryMode > 0, [p.deliveryMode]),
     When(p.priority > 0, [p.priority]),
     When(p.correlationId != [], Str8(p.correlationId)),
     When(p.replyTo != [], Str8(p.replyTo)),
     When(p.expiration != [], Str8(p.expiration)),
     When(p.messageId != [], Str8(p.messageId)),
     When(Stamped(p.timestamp), U64(Complement(p.timestamp.sec, 0x1_0000_0000_0000_0000))),
     When(p.typ != [], Str8(p.typ)),
     When(p.userId != [], Str8(p.userId)),
     When(p.appId != [], Str8(p.appId))]
  }

  lemma {:induction false} Fitting(p: LaidProperties)
    requires FitsProperties(p)
    ensures |p.contentType| <= 0xFF && |p.contentEncoding| <= 0xFF && |p.correlationId| <= 0xFF && |p.replyTo| <= 0xFF
    ensures |p.expiration| <= 0xFF && |p.messageId| <= 0xFF && |p.typ| <= 0xFF && |p.userId| <= 0xFF && |p.appId| <= 0xFF
    ensures SupportedEntries(p.headers) && FitsTable(p.headers)
  {
    var s := Slots(p);
    assert FitsSlot(s[0]) && FitsSlot(s[1]) && FitsSlot(s[2]) && FitsSlot(s[5]) && FitsSlot(s[6]) && FitsSlot(s[7]);
    assert FitsSlot(s[8]) && FitsSlot(s[10]) && FitsSlot(s[11]) && FitsSlot(s[12]);
  }

  function SlotForm(s: Headers.Laid): bytes
    requires FitsSlot(s)
  {
    match s
    case StrSlot(s) => Str8(s)
    case TableSlot(entries) => FL.TableOctets(entries)
    case OctetSlot(n) => [n]
    case TimeSlot(at) => U64(Complement(at.sec, 0x1_0000_0000_0000_0000))
  }

  lemma {:induction false} SlotOctets(s: Headers.Laid)
    requires FitsSlot(s)
    ensures EncodeSlot(s) == SlotForm(s)
  {
    match s
    case StrSlot(s) =>
      FL.ShortstrOctets(s);
    case TableSlot(entries) =>
      FL.TableLayout(entries);
    case OctetSlot(n) =>
      BigEndian1(n);
    case TimeSlot(at) =>
      FL.UnsignedIsComplement(at.sec, 8);
      BigEndian8(Unsigned(at.sec, 8));
  }

  lemma {:induction false} Parts(p: LaidProperties, k: nat)
    requires FitsProperties(p) && k < 13
    ensures SupportedSlot(Slots(p)[k]) && Piece(Slots(p)[k], MaskOf(Slots(p)), k) == PropertyParts(p)[k]
  {
    assert FitsSlot(Slots(p)[k]);
    SlotOctets(Slots(p)[k]);
    assert HasProperty(MaskOf(Slots(p)), k) <==> Present(Slots(p)[k]);
    if k < 4 {
      FirstParts(p, k);
    } else if k < 9 {
      MiddleParts(p, k);
    } else {
      LastParts(p, k);
    }
  }

  /** Each slot is the property at its place. */
  lemma {:induction false} FirstParts(p: LaidProperties, k: nat)
    requires FitsProperties(p) && k < 4
    ensures FitsSlot(Slots(p)[k]) && PropertyParts(p)[k] == When(Present(Slots(p)[k]), SlotForm(Slots(p)[k]))
  {
    assert FitsSlot(Slots(p)[k]);
  }

  lemma {:induction false} MiddleParts(p: LaidProperties, k: nat)
    requires FitsProperties(p) && 4 <= k < 9
    ensures FitsSlot(Slots(p)[k]) && PropertyParts(p)[k] == When(Present(Slots(p)[k]), SlotForm(Slots(p)[k]))
  {
    assert FitsSlot(Slots(p)[k]);
  }

  lemma {:induction false} LastParts(p: LaidProperties, k: nat)
    requires FitsProperties(p) && 9 <= k < 13
    ensures FitsSlot(Slots(p)[k]) && PropertyParts(p)[k] == When(Present(Slots(p)[k]), SlotForm(Slots(p)[k]))
  {
    assert FitsSlot(Slots(p)[k]);
  }

  lemma {:induction false} ListOctets(slots: seq<Headers.Laid>, mask: Mask, parts: seq<bytes>, k: nat)
    requires k <= |slots| == |parts| <= 16 && SupportedSlots(slots)
    requires forall i | 0 <= i < |slots| :: Piece(slots[i], mask, i) == parts[i]
    ensures EncodeSlots(slots, mask, k) == Flatten(parts[k..])
    decreases |slots| - k
  {
    if k < |slots| {
      ListOctets(slots, mask, parts, k + 1);
      assert parts[k..][1..] == parts[k + 1..];
    }
  }

  // ----- the flags -----

  /** flags & flag > 0, for a flag that is a power of two. */
  predicate Has(flags: uint16, flag: nat)
    requires flag > 0
  {
    flags / flag % 2 == 1
  }

  predicate HighFlags(flags: uint16, p: LaidProperties) {
    && (Has(flags, 0x8000) <==> p.contentType != [])
    && (Has(flags, 0x4000) <==> p.contentEncoding != [])
    && (Has(flags, 0x2000) <==> p.headers != [])
    && (Has(flags, 0x1000) <==> p.deliveryMode > 0)
  }

  predicate UpperFlags(flags: uint16, p: LaidProperties) {
    && (Has(flags, 0x0800) <==> p.priority > 0)
    && (Has(flags, 0x0400) <==> p.correlationId != [])
    && (Has(flags, 0x0200) <==> p.replyTo != [])
    && (Has(flags, 0x0100) <==> p.expiration != [])
  }

  predicate LowerFlags(flags: uint16, p: LaidProperties) {
    && (Has(flags, 0x0080) <==> p.messageId != [])
    && (Has(flags, 0x0040) <==> Stamped(p.timestamp))
    && (Has(flags, 0x0020) <==> p.typ != [])
    && (Has(flags, 0x0010) <==> p.userId != [])
    && (Has(flags, 0x0008) <==> p.appId != [])
  }

  /** The flags of the properties that differ from their defaults, by name. */
  predicate FlagsOf(flags: uint16, p: LaidProperties) {
    HighFlags(flags, p) && UpperFlags(flags, p) && LowerFlags(flags, p)
    && !Has(flags, 0x0004) && !Has(flags, 0x0002) && !Has(flags, 0x0001)
  }

  lemma {:induction false} BitAt(n: nat, k: nat, j: nat)
    requires j < k
    ensures ToBits(n, k)[j] <==> n / Pow2(j) % 2 == 1
  {
    if j > 0 {
      BitAt(n / 2, k - 1, j - 1);
      HalfDivides(n, Pow2(j - 1));
    }
  }

  lemma {:induction false} HalfDivides(n: nat, p: nat)
    requires p > 0
    ensures n / 2 / p == n / (2 * p)
  {
    var q, r := n / (2 * p), n % (2 * p);
    assert n == (2 * p) * q + r == 2 * (p * q) + r;
    assert n / 2 == p * q + r / 2 && 0 <= r / 2 < p;
    QuotientUnique(n / 2, p, q, r / 2);
  }

  lemma {:induction false} QuotientUnique(n: nat, p: nat, q: nat, r: nat)
    requires p > 0 && n == p * q + r && r < p
    ensures n / p == q
  {
    var d := n / p - q;
    assert p * d == r - n % p by {
      assert n == p * (n / p) + n % p;
    }
    Magnitude(p, d);
  }

  lemma {:induction false} Magnitude(p: int, d: int)
    requires p > 0
    ensures d >= 1 ==> p * d >= p
    ensures d <= -1 ==> p * d <= -p
  {
  }

  lemma {:induction false} FlagWeights()
    ensures Pow2(3) == 0x0008 && Pow2(4) == 0x0010 && Pow2(5) == 0x0020 && Pow2(6) == 0x0040 && Pow2(7) == 0x0080
    ensures Pow2(8) == 0x0100 && Pow2(9) == 0x0200 && Pow2(10) == 0x0400 && Pow2(11) == 0x0800 && Pow2(12) == 0x1000
    ensures Pow2(13) == 0x2000 && Pow2(14) == 0x4000 && Pow2(15) == 0x8000
  {
    assert Pow2(3) == 8;
    assert Pow2(6) == 0x40;
    assert Pow2(9) == 0x200;
    assert Pow2(12) == 0x1000;
  }

  /** The flag of slot `k` is 0x8000 >> k. */
  lemma {:induction false} SlotFlag(slots: seq<Headers.Laid>, k: nat, flag: nat)
    requires |slots| <= 16 && k < 16 && flag * Pow2(k) == 0x8000
    ensures flag > 0 && (Has(MaskWord(MaskOf(slots)), flag) <==> k < |slots| && Present(slots[k]))
  {
    PowProduct(k);
    assert flag == Pow2(15 - k);
    MaskBit(slots, k);
    BitAt(MaskWord(MaskOf(slots)), 16, 15 - k);
  }

  lemma {:induction false} PowProduct(k: nat)
    requires k < 16
    ensures Pow2(15 - k) * Pow2(k) == 0x8000
    ensures forall f: nat :: f * Pow2(k) == 0x8000 ==> f == Pow2(15 - k)
  {
    FlagWeights();
  }

  lemma {:induction false} MaskBit(slots: seq<Headers.Laid>, k: nat)
    requires |slots| <= 16 && k < 16
    ensures ToBits(MaskWord(MaskOf(slots)), 16)[15 - k] <==> k < |slots| && Present(slots[k])
  {
    BitsRoundTrip(MaskOf(slots));
  }

  lemma {:induction false} HighFlagsLaid(p: LaidProperties)
    ensures HighFlags(MaskWord(MaskOf(Slots(p))), p)
  {
    var slots := Slots(p);
    SlotFlag(slots, 0, 0x8000);
    SlotFlag(slots, 1, 0x4000);
    SlotFlag(slots, 2, 0x2000);
    SlotFlag(slots, 3, 0x1000);
  }

  lemma {:induction false} UpperFlagsLaid(p: LaidProperties)
    ensures UpperFlags(MaskWord(MaskOf(Slots(p))), p)
  {
    var slots := Slots(p);
    SlotFlag(slots, 4, 0x0800);
    SlotFlag(slots, 5, 0x0400);
    SlotFlag(slots, 6, 0x0200);
    SlotFlag(slots, 7, 0x0100);
  }

  lemma {:induction false} LowerFlagsLaid(p: LaidProperties)
    ensures LowerFlags(MaskWord(MaskOf(Slots(p))), p)
  {
    var slots := Slots(p);
    SlotFlag(slots, 8, 0x0080);
    SlotFlag(slots, 9, 0x0040);
    SlotFlag(slots, 10, 0x0020);
    SlotFlag(slots, 11, 0x0010);
    SlotFlag(slots, 12, 0x0008);
  }

  lemma {:induction false} NoLowFlags(slots: seq<Headers.Laid>)
    requires |slots| == 13
    ensures var flags := MaskWord(MaskOf(slots));
            !Has(flags, 0x0004) && !Has(flags, 0x0002) && !Has(flags, 0x0001)
  {
    SlotFlag(slots, 13, 0x0004);
    SlotFlag(slots, 14, 0x0002);
    SlotFlag(slots, 15, 0x0001);
  }

  lemma {:induction false} FlagsLayout(p: LaidProperties)
    ensures FlagsOf(MaskWord(MaskOf(Slots(p))), p)
  {
    HighFlagsLaid(p);
    UpperFlagsLaid(p);
    LowerFlagsLaid(p);
    NoLowFlags(Slots(p));
  }

  // ----- content headers -----

  /** headerFrame.write: class, weight, body size, flags and the flagged properties. */
  lemma {:induction false} HeaderLayout(spec: M.Spec, channel: uint16, classId: uint16, weight: uint16, size: uint64, p: LaidProperties)
    returns (flags: uint16)
    requires FitsProperties(p)
    ensures FlagsOf(flags, p)
    ensures F.Payload(spec, F.HeaderFrame(channel, classId, weight, size, p))
            == U16(classId) + U16(weight) + U64(size) + (U16(flags) + Flatten(PropertyParts(p)))
  {
    BigEndian2(classId);
    BigEndian2(weight);
    BigEndian8(size);
    flags := PropertiesLayout(p);
  }

  lemma {:induction false} PropertiesLayout(p: LaidProperties) returns (flags: uint16)
    requires FitsProperties(p)
    ensures FlagsOf(flags, p)
    ensures EncodeProperties(Slots(p)) == U16(flags) + Flatten(PropertyParts(p))
  {
    var slots, parts := Slots(p), PropertyParts(p);
    flags := MaskWord(MaskOf(slots));
    FlagsLayout(p);
    BigEndian2(flags);
    forall k | 0 <= k < 13
      ensures SupportedSlot(slots[k]) && Piece(slots[k], MaskOf(slots), k) == parts[k]
    {
      Parts(p, k);
    }
    ListOctets(slots, MaskOf(slots), parts, 0);
    assert parts[0..] == parts;
  }

  /** The reader takes flag 0x0004 for one more short string, which the writer never sends. */
  lemma {:induction false} ReservedProperty(s: bytes, rest: bytes)
    requires |s| <= 0xFF
    ensures var r := DecodeProperties(SLOT_KINDS, U16(0x0004) + (Str8(s) + rest));
            && r.Ok? && r.rest == rest && r.value[13] == StrSlot(s)
            && forall i | 0 <= i < 13 :: r.value[i] == Default(SLOT_KINDS[i])
  {
    BigEndian2(0x0004);
    ReadUintInverts(0x0004, 2, Str8(s) + rest);
    FourIsReserved();
    FL.ShortstrOctets(s);
    ShortstrFaithful(s, rest);
    OnlyReserved(ToBits(4, 16), 0, s, rest);
  }

  lemma {:induction false} FourIsReserved()
    ensures forall k | 0 <= k < 16 :: ToBits(4, 16)[k] <==> k == 2
  {
    assert ToBits(4, 16) == [false] + ToBits(2, 15);
    assert ToBits(2, 15) == [false] + ToBits(1, 14);
    assert ToBits(1, 14) == [true] + ToBits(0, 13);
    ZeroBits(13);
  }

  lemma {:induction false} ZeroBits(n: nat)
    ensures forall k | 0 <= k < n :: !ToBits(0, n)[k]
  {
    if n > 0 {
      ZeroBits(n - 1);
    }
  }

  lemma {:induction false} OnlyReserved(mask: Mask, k: nat, s: bytes, rest: bytes)
    requires k <= 13 && |s| <= 0xFF && forall j | 0 <= j < 16 :: mask[j] <==> j == 2
    requires ReadShortstr(Str8(s) + rest) == Ok(s, rest)
    ensures DecodeSlots(SLOT_KINDS, mask, k, Str8(s) + rest).Ok?
    ensures DecodeSlots(SLOT_KINDS, mask, k, Str8(s) + rest).rest == rest
    ensures var vs := DecodeSlots(SLOT_KINDS, mask, k, Str8(s) + rest).value;
            |vs| == 14 - k && vs[13 - k] == StrSlot(s) && forall i | 0 <= i < 13 - k :: vs[i] == Default(SLOT_KINDS[k + i])
    decreases 13 - k
  {
    if k < 13 {
      OnlyReserved(mask, k + 1, s, rest);
    }
  }

  // ----- frames -----

  /** Type, channel, size, payload and the end octet. */
  function Framed(typ: byte, channel: uint16, payload: bytes): bytes
    requires |payload| < 0x1_0000_0000
  {
    [typ] + U16(channel) + U32(|payload|) + payload + [206]
  }

  /** A method frame has type 1, a header frame 2, a body frame 3 and a heartbeat 8. */
  function FrameOctets(spec: M.Spec, f: F.Laid): bytes
    requires F.FitsFrame(spec, f)
  {
    match f
    case MethodFrame(channel, m) => Framed(1, channel, M.EncodeMethod(spec, m))
    case HeaderFrame(channel, _, _, _, _) => Framed(2, channel, F.Payload(spec, f))
    case BodyFrame(channel, body) => Framed(3, channel, body)
    case HeartbeatFrame(channel) => [8] + U16(channel) + [0, 0, 0, 0] + [206]
  }

  /** What is written for a frame; HeaderLayout and the layouts of methods give the payloads. */
  lemma {:induction false} FrameLayout(spec: M.Spec, f: F.Laid)
    requires F.FitsFrame(spec, f)
    ensures F.EncodeFrame(spec, f) == FrameOctets(spec, f)
  {
    var payload := F.Payload(spec, f);
    SmallMod(|payload|, 0x1_0000_0000);
    BigEndian2(f.channel);
    BigEndian4(|payload|);
    if f.HeartbeatFrame? {
      assert U32(0) == [0, 0, 0, 0];
      assert [8] + U16(f.channel) + [0, 0, 0, 0] + [] == [8] + U16(f.channel) + [0, 0, 0, 0];
    }
  }

  // ----- what the reader refuses -----

  lemma {:induction false} FramedHeader(typ: byte, channel: uint16, payload: bytes, end: byte, rest: bytes)
    requires |payload| < 0x1_0000_0000
    ensures var data := [typ] + U16(channel) + U32(|payload|) + payload + [end] + rest;
            var r := ReadFull(data, 7);
            && r.Ok? && r.rest == payload + ([end] + rest) && r.value[0] == typ
            && F.Number(r.value[1..3], 2) == channel && F.Number(r.value[3..7], 4) == |payload|
  {
    var h := [typ] + U16(channel) + U32(|payload|);
    var data := h + payload + [end] + rest;
    assert data == h + (payload + ([end] + rest));
    assert data[..7] == h && data[7..] == payload + ([end] + rest);
    assert h[1..3] == U16(channel) && h[3..7] == U32(|payload|);
    BigEndian2(channel);
    BigEndian4(|payload|);
    LimitIsPow256(2);
    LimitIsPow256(4);
    BigEndianRoundTrip(channel, 2);
    BigEndianRoundTrip(|payload|, 4);
  }

  /** A frame of no known type, a heartbeat with a payload, and a body frame with a wrong end octet. */
  lemma {:induction false} RefusedFrames(spec: M.Spec, typ: byte, channel: uint16, payload: bytes, end: byte, rest: bytes)
    requires M.ValidSpec(spec) && |payload| < 0x1_0000_0000
    ensures var r := F.ReadFrame(spec, [typ] + U16(channel) + U32(|payload|) + payload + [end] + rest);
            && (typ !in {1, 2, 3, 8} ==> r == Err(BadFrame, payload + ([end] + rest)))
            && (typ == 8 && payload != [] ==> r == Err(HeartbeatPayload, payload + ([end] + rest)))
            && (typ == 8 && payload == [] ==> r == if end == 206 then Ok(F.HeartbeatFrame(channel), rest) else Err(BadFrame, rest))
            && (typ == 3 ==> r == if end == 206 then Ok(F.BodyFrame(channel, payload), rest) else Err(BadFrame, rest))
  {
    FramedHeader(typ, channel, payload, end, rest);
    var d := payload + ([end] + rest);
    assert d[..|payload|] == payload && d[|payload|..] == [end] + rest;
    assert ([end] + rest)[..1] == [end] && ([end] + rest)[1..] == rest;
    assert payload == [] ==> d == [end] + rest;
  }
}
