/** Content headers: the property flags and the property list, written in two passes. */
module Headers {
  import opened Bytes
  import opened Primitives
  import opened Fields
  import opened FieldTheorems
  import opened FieldIO

  /** Unix seconds of Go's zero time, 1 January of year 1. */
  const ZERO_TIME: int64 := -62135596800

  datatype Timestamp = Timestamp(sec: int64, nano: nat)

  const NO_TIME: Timestamp := Timestamp(ZERO_TIME, 0)

  /** The basic properties. `T` is how the headers table is held, as for method fields. */
  datatype Properties<+T> = Properties(
    contentType: bytes, contentEncoding: bytes, headers: T, deliveryMode: byte, priority: byte,
    correlationId: bytes, replyTo: bytes, expiration: bytes, messageId: bytes, timestamp: Timestamp,
    typ: bytes, userId: bytes, appId: bytes, reserved1: bytes)

  /** One property, in the order of the flags: slot `k` belongs to flag 0x8000 >> k. */
  datatype Slot<+T> = StrSlot(s: bytes) | TableSlot(t: T) | OctetSlot(n: byte) | TimeSlot(at: Timestamp)
  datatype SlotKind = StrS | TableS | OctetS | TimeS

  type Laid = Slot<seq<Entry>>
  type Value = Slot<FieldTable>

  /** The thirteen properties that the writer knows. */
  function Slots<T>(p: Properties<T>): (r: seq<Slot<T>>)
    ensures |r| == 13
  {
    [StrSlot(p.contentType), StrSlot(p.contentEncoding), TableSlot(p.headers), OctetSlot(p.deliveryMode),
     OctetSlot(p.priority), StrSlot(p.correlationId), StrSlot(p.replyTo), StrSlot(p.expiration),
     StrSlot(p.messageId), TimeSlot(p.timestamp), StrSlot(p.typ), StrSlot(p.userId), StrSlot(p.appId)]
  }

  /** The fourteen properties that the reader knows: it also takes in the old cluster id. */
  const SLOT_KINDS: seq<SlotKind> :=
    [StrS, StrS, TableS, OctetS, OctetS, StrS, StrS, StrS, StrS, TimeS, StrS, StrS, StrS, StrS]

  function KindOf<T>(s: Slot<T>): SlotKind {
    match s
    case StrSlot(_) => StrS
    case TableSlot(_) => TableS
    case OctetSlot(_) => OctetS
    case TimeSlot(_) => TimeS
  }

  /** The property differs from its default. */
  predicate Present(s: Laid) {
    match s
    case StrSlot(s) => s != []
    case TableSlot(entries) => |entries| > 0
    case OctetSlot(n) => n > 0
    case TimeSlot(at) => at != NO_TIME
  }

  function Default(kind: SlotKind): Value {
    match kind
    case StrS => StrSlot([])
    case TableS => TableSlot(map[])
    case OctetS => OctetSlot(0)
    case TimeS => TimeSlot(NO_TIME)
  }

  predicate FitsSlot(s: Laid) {
    match s
    case StrSlot(s) => |s| <= 0xFF
    case TableSlot(entries) => SupportedEntries(entries) && FitsTable(entries)
    case _ => true
  }

  /** The headers, if any, hold only values that can be encoded. */
  predicate SupportedSlot(s: Laid) {
    s.TableSlot? ==> SupportedEntries(s.t)
  }

  predicate SupportedSlots(slots: seq<Laid>) {
    forall k | 0 <= k < |slots| :: SupportedSlot(slots[k])
  }

  predicate FitsSlots(slots: seq<Laid>) {
    forall k | 0 <= k < |slots| :: FitsSlot(slots[k])
  }

  ghost predicate OrdersSlot(w: Laid, v: Value) {
    match w
    case TableSlot(entries) => v.TableSlot? && OrdersTable(entries, v.t)
    case StrSlot(s) => v == StrSlot(s)
    case OctetSlot(n) => v == OctetSlot(n)
    case TimeSlot(at) => v == TimeSlot(at)
  }

  ghost predicate OrdersSlots(ws: seq<Laid>, vs: seq<Value>) {
    |ws| == |vs| && forall k | 0 <= k < |ws| :: OrdersSlot(ws[k], vs[k])
  }

  function NormalSlot(v: Value): Value {
    match v
    case TableSlot(m) => TableSlot(NormalTable(m))
    case TimeSlot(at) => TimeSlot(Timestamp(at.sec, 0))
    case _ => v
  }

  // ----- writing -----

  function EncodeSlot(s: Laid): bytes
    requires SupportedSlot(s)
  {
    match s
    case StrSlot(s) => Shortstr(s)
    case TableSlot(entries) => EncodeTable(entries)
    case OctetSlot(n) => BigEndian(n, 1)
    case TimeSlot(at) => BigEndian(Unsigned(at.sec, 8), 8)
  }

  type Mask = bits: seq<bool> | |bits| == 16 witness seq(16, i => false)

  /** mask & (0x8000 >> k) > 0 */
  predicate HasProperty(mask: Mask, k: nat)
    requires k < 16
  {
    mask[15 - k]
  }

  /** The first pass: the flags of the properties that are present. */
  function MaskOf(slots: seq<Laid>): Mask
    requires |slots| <= 16
  {
    seq(16, j requires 0 <= j < 16 => 15 - j < |slots| && Present(slots[15 - j]))
  }

  /** The second pass, from slot `k` on: the properties whose flags are set. */
  function EncodeSlots(slots: seq<Laid>, mask: Mask, k: nat): bytes
    requires k <= |slots| <= 16 && SupportedSlots(slots)
    decreases |slots| - k
  {
    if k == |slots| then [] else Piece(slots[k], mask, k) + EncodeSlots(slots, mask, k + 1)
  }

  function Piece(s: Laid, mask: Mask, k: nat): bytes
    requires k < 16 && SupportedSlot(s)
  {
    if HasProperty(mask, k) then EncodeSlot(s) else []
  }

  function MaskWord(mask: Mask): uint16 {
    BitsRoundTrip(mask);
    Pow2Values();
    FromBits(mask)
  }

  function EncodeProperties(slots: seq<Laid>): bytes
    requires |slots| <= 16 && SupportedSlots(slots)
  {
    BigEndian(MaskWord(MaskOf(slots)), 2) + EncodeSlots(slots, MaskOf(slots), 0)
  }

  // ----- reading -----

  function DecodeSlot(kind: SlotKind, data: bytes): (r: Read<Value>)
    ensures |r.rest| <= |data|
  {
    match kind
    case StrS => var (s, d) :- ReadShortstr(data); Ok(StrSlot(s), d)
    case TableS => var (m, d) :- DecodeTable(data); Ok(TableSlot(m), d)
    case OctetS => var (n, d) :- ReadUint(data, 1); Ok(OctetSlot(n), d)
    case TimeS => var (n, d) :- ReadUint(data, 8); Ok(TimeSlot(Timestamp(Signed(n, 8), 0)), d)
  }

  function DecodeSlots(kinds: seq<SlotKind>, mask: Mask, k: nat, data: bytes): (r: Read<seq<Value>>)
    requires k <= |kinds| <= 16
    ensures r.Ok? ==> |r.value| == |kinds| - k
    ensures |r.rest| <= |data|
    decreases |kinds| - k
  {
    if k == |kinds| then Ok([], data) else
    var (v, d) :- if HasProperty(mask, k) then DecodeSlot(kinds[k], data) else Ok(Default(kinds[k]), data);
    var (vs, rest) :- DecodeSlots(kinds, mask, k + 1, d);
    Ok([v] + vs, rest)
  }

  function DecodeProperties(kinds: seq<SlotKind>, data: bytes): (r: Read<seq<Value>>)
    requires |kinds| <= 16
    ensures r.Ok? ==> |r.value| == |kinds|
    ensures |r.rest| <= |data|
  {
    var (word, d) :- ReadUint(data, 2);
    DecodeSlots(kinds, ToBits(word, 16), 0, d)
  }

  // ----- the reader inverts the writer -----

  lemma {:induction false} SlotRoundTrip(w: Laid, v: Value, rest: bytes)
    requires FitsSlot(w) && OrdersSlot(w, v)
    ensures DecodeSlot(KindOf(w), EncodeSlot(w) + rest) == Ok(NormalSlot(v), rest)
  {
    match w
    case StrSlot(s) =>
      ShortstrFaithful(s, rest);
    case TableSlot(entries) =>
      TableRoundTrip(entries, rest);
      TableOrderIrrelevant(entries, v.t);
    case OctetSlot(n) =>
      ReadUintInverts(n, 1, rest);
    case TimeSlot(at) =>
      IntegerRoundTrip(at.sec, 8, rest);
  }

  /** An absent property reads back as it was: absence coincides with the default. */
  lemma {:induction false} AbsentIsDefault(w: Laid, v: Value)
    requires OrdersSlot(w, v)
    ensures Present(w) <==> v != Default(KindOf(w))
    ensures !Present(w) ==> NormalSlot(v) == Default(KindOf(w))
  {
    if w.TableSlot? {
      if |w.t| > 0 {
        assert w.t[0].key in v.t;
      } else {
        assert v.t == map[] && NormalTable(v.t) == map[];
      }
    }
  }

  lemma {:induction false} DecodeSlotsCons(kinds: seq<SlotKind>, mask: Mask, k: nat, data: bytes, v: Value, d: bytes,
                        vs: seq<Value>, rest: bytes)
    requires k < |kinds| <= 16
    requires (if HasProperty(mask, k) then DecodeSlot(kinds[k], data) else Ok(Default(kinds[k]), data)) == Ok(v, d)
    requires DecodeSlots(kinds, mask, k + 1, d) == Ok(vs, rest)
    ensures DecodeSlots(kinds, mask, k, data) == Ok([v] + vs, rest)
  {
  }

  /** What the reader makes of the slots from `k` on; the slots the writer does not know are defaults. */
  ghost function ReceivedSlots(kinds: seq<SlotKind>, vs: seq<Value>, k: nat): seq<Value>
    requires k <= |kinds|
    decreases |kinds| - k
  {
    if k == |kinds| then []
    else [if k < |vs| then NormalSlot(vs[k]) else Default(kinds[k])] + ReceivedSlots(kinds, vs, k + 1)
  }

  ghost predicate Sendable(kinds: seq<SlotKind>, ws: seq<Laid>, vs: seq<Value>) {
    && |ws| <= |kinds| <= 16
    && (forall k | 0 <= k < |ws| :: KindOf(ws[k]) == kinds[k])
    && FitsSlots(ws) && OrdersSlots(ws, vs)
  }

  lemma {:induction false} SlotStep(kinds: seq<SlotKind>, ws: seq<Laid>, vs: seq<Value>, k: nat, rest: bytes)
    requires Sendable(kinds, ws, vs) && k < |ws|
    ensures var mask := MaskOf(ws);
            var data := EncodeSlots(ws, mask, k) + rest;
            (if HasProperty(mask, k) then DecodeSlot(kinds[k], data) else Ok(Default(kinds[k]), data))
            == Ok(NormalSlot(vs[k]), EncodeSlots(ws, mask, k + 1) + rest)
  {
    var mask := MaskOf(ws);
    var tail := EncodeSlots(ws, mask, k + 1) + rest;
    AbsentIsDefault(ws[k], vs[k]);
    if HasProperty(mask, k) {
      assert EncodeSlots(ws, mask, k) + rest == EncodeSlot(ws[k]) + tail;
      SlotRoundTrip(ws[k], vs[k], tail);
    } else {
      assert EncodeSlots(ws, mask, k) + rest == tail;
    }
  }

  lemma {:induction false} SlotsRoundTrip(kinds: seq<SlotKind>, ws: seq<Laid>, vs: seq<Value>, k: nat, rest: bytes)
    requires Sendable(kinds, ws, vs) && k <= |kinds|
    ensures DecodeSlots(kinds, MaskOf(ws), k, (if k <= |ws| then EncodeSlots(ws, MaskOf(ws), k) else []) + rest)
            == Ok(ReceivedSlots(kinds, vs, k), rest)
    decreases |kinds| - k
  {
    var mask := MaskOf(ws);
    var data := (if k <= |ws| then EncodeSlots(ws, mask, k) else []) + rest;
    if k == |kinds| {
      assert data == rest;
    } else if k >= |ws| {
      SlotsRoundTrip(kinds, ws, vs, k + 1, rest);
      assert data == rest && [] + rest == rest;
      DecodeSlotsCons(kinds, mask, k, data, Default(kinds[k]), rest, ReceivedSlots(kinds, vs, k + 1), rest);
    } else {
      var tail := EncodeSlots(ws, mask, k + 1) + rest;
      SlotsRoundTrip(kinds, ws, vs, k + 1, rest);
      SlotStep(kinds, ws, vs, k, rest);
      DecodeSlotsCons(kinds, mask, k, data, NormalSlot(vs[k]), tail, ReceivedSlots(kinds, vs, k + 1), rest);
    }
  }

  lemma {:induction false} PropertiesRoundTrip(kinds: seq<SlotKind>, ws: seq<Laid>, vs: seq<Value>, rest: bytes)
    requires Sendable(kinds, ws, vs)
    ensures DecodeProperties(kinds, EncodeProperties(ws) + rest) == Ok(ReceivedSlots(kinds, vs, 0), rest)
  {
    var mask := MaskOf(ws);
    var tail := EncodeSlots(ws, mask, 0) + rest;
    assert EncodeProperties(ws) + rest == BigEndian(MaskWord(mask), 2) + tail;
    ReadUintInverts(MaskWord(mask), 2, tail);
    BitsRoundTrip(mask);
    SlotsRoundTrip(kinds, ws, vs, 0, rest);
  }

  // ----- the properties record -----

  function AsStr(v: Value): bytes {
    if v.StrSlot? then v.s else []
  }

  function AsOctet(v: Value): byte {
    if v.OctetSlot? then v.n else 0
  }

  function FromSlots(slots: seq<Value>): Properties<FieldTable>
    requires |slots| == 14
  {
    Properties(
      AsStr(slots[0]), AsStr(slots[1]), if slots[2].TableSlot? then slots[2].t else map[], AsOctet(slots[3]),
      AsOctet(slots[4]), AsStr(slots[5]), AsStr(slots[6]), AsStr(slots[7]), AsStr(slots[8]),
      if slots[9].TimeSlot? then slots[9].at else NO_TIME, AsStr(slots[10]), AsStr(slots[11]), AsStr(slots[12]),
      AsStr(slots[13]))
  }

  /** What a peer receives: normalised headers, whole seconds, and never the old cluster id. */
  function NormalProperties(p: Properties<FieldTable>): Properties<FieldTable> {
    p.(headers := NormalTable(p.headers), timestamp := Timestamp(p.timestamp.sec, 0), reserved1 := [])
  }

  lemma {:induction false} ReceivedAt(kinds: seq<SlotKind>, vs: seq<Value>, k: nat, i: nat)
    requires k <= i < |kinds|
    ensures |ReceivedSlots(kinds, vs, k)| == |kinds| - k
    ensures ReceivedSlots(kinds, vs, k)[i - k] == if i < |vs| then NormalSlot(vs[i]) else Default(kinds[i])
    decreases |kinds| - k
  {
    if k < i {
      ReceivedAt(kinds, vs, k + 1, i);
    } else if k + 1 < |kinds| {
      ReceivedAt(kinds, vs, k + 1, k + 1);
    }
  }

  lemma {:induction false} ReceivedRecord(p: Properties<FieldTable>)
    ensures var r := ReceivedSlots(SLOT_KINDS, Slots(p), 0);
            |r| == 14 && FromSlots(r) == NormalProperties(p)
  {
    var r := ReceivedSlots(SLOT_KINDS, Slots(p), 0);
    forall i | 0 <= i < 14
      ensures |r| == 14 && r[i] == if i < 13 then NormalSlot(Slots(p)[i]) else Default(SLOT_KINDS[i])
    {
      ReceivedAt(SLOT_KINDS, Slots(p), 0, i);
    }
    assert r[0] == NormalSlot(Slots(p)[0]);
  }

  ghost predicate OrdersProperties(w: Properties<seq<Entry>>, v: Properties<FieldTable>) {
    OrdersSlots(Slots(w), Slots(v))
  }

  predicate FitsProperties(w: Properties<seq<Entry>>) {
    FitsSlots(Slots(w))
  }

  lemma {:induction false} RecordRoundTrip(w: Properties<seq<Entry>>, v: Properties<FieldTable>, rest: bytes)
    requires FitsProperties(w) && OrdersProperties(w, v)
    ensures var r := DecodeProperties(SLOT_KINDS, EncodeProperties(Slots(w)) + rest);
            r.Ok? && r.rest == rest && FromSlots(r.value) == NormalProperties(v)
  {
    assert Sendable(SLOT_KINDS, Slots(w), Slots(v));
    PropertiesRoundTrip(SLOT_KINDS, Slots(w), Slots(v), rest);
    ReceivedRecord(v);
  }

  // ----- headerFrame.write as it works -----

  /** Writes the flags and the property list. It fails exactly when the headers hold a value of an
      unsupported type, which is what Table.Validate rules out before a publish. */
  method WriteProperties(w: Buffer, vs: seq<Value>) returns (ok: bool, ghost ws: seq<Laid>)
    requires |vs| <= 16
    modifies w
    ensures ok <==> forall k | 0 <= k < |vs| :: Encodable(vs[k])
    ensures ok ==> OrdersSlots(ws, vs) && SupportedSlots(ws)
    ensures ok ==> w.data == old(w.data) + EncodeProperties(ws)
  {
    var mask := BuildMask(vs);
    var list := new Buffer([]);
    ok, ws := WriteList(list, vs, mask);
    if ok {
      MaskIsPresence(mask, ws, vs);
      w.data := w.data + (BigEndian(MaskWord(mask), 2) + list.data);
    }
  }

  predicate Encodable(v: Value) {
    v.TableSlot? ==> Supported(Table(v.t))
  }

  ghost predicate IsMask(mask: Mask, vs: seq<Value>) {
    forall j | 0 <= j < 16 :: mask[j] <==> 15 - j < |vs| && vs[15 - j] != Default(KindOf(vs[15 - j]))
  }

  /** The first pass: or-s up the flags of the properties that differ from their defaults. */
  method BuildMask(vs: seq<Value>) returns (mask: Mask)
    requires |vs| <= 16
    ensures IsMask(mask, vs)
  {
    mask := seq(16, i => false);
    for k := 0 to |vs|
      invariant forall j | 0 <= j < 16 :: mask[j] <==> 15 - j < k && vs[15 - j] != Default(KindOf(vs[15 - j]))
    {
      if vs[k] != Default(KindOf(vs[k])) {
        mask := mask[15 - k := true];
      }
    }
  }

  /** The first properties of `vs` have been written to `data`. */
  ghost predicate ListedSoFar(ws: seq<Laid>, vs: seq<Value>, mask: Mask, data: bytes) {
    && |ws| <= |vs| <= 16
    && (forall i | 0 <= i < |ws| :: OrdersSlot(ws[i], vs[i]) && SupportedSlot(ws[i]) && Encodable(vs[i]))
    && data == EncodeSlots(ws, mask, 0)
  }

  lemma {:induction false} ListOneMore(ws: seq<Laid>, vs: seq<Value>, mask: Mask, data: bytes, slot: Laid)
    requires ListedSoFar(ws, vs, mask, data) && |ws| < |vs|
    requires OrdersSlot(slot, vs[|ws|]) && SupportedSlot(slot) && Encodable(vs[|ws|])
    ensures ListedSoFar(ws + [slot], vs, mask, data + Piece(slot, mask, |ws|))
  {
    var all := ws + [slot];
    forall i | 0 <= i < |all|
      ensures OrdersSlot(all[i], vs[i]) && SupportedSlot(all[i]) && Encodable(vs[i])
    {
      assert all[i] == if i < |ws| then ws[i] else slot;
    }
    EncodeSlotsAppend(ws, slot, mask, 0);
  }

  /** The second pass: serialises the properties whose flags are set. */
  method WriteList(w: Buffer, vs: seq<Value>, mask: Mask) returns (ok: bool, ghost ws: seq<Laid>)
    requires |vs| <= 16 && IsMask(mask, vs) && w.data == []
    modifies w
    ensures ok <==> forall k | 0 <= k < |vs| :: Encodable(vs[k])
    ensures ok ==> OrdersSlots(ws, vs) && SupportedSlots(ws) && w.data == EncodeSlots(ws, mask, 0)
  {
    ws := [];
    for k := 0 to |vs|
      invariant |ws| == k && ListedSoFar(ws, vs, mask, w.data)
    {
      ghost var slot: Laid;
      ghost var data := w.data;
      if HasProperty(mask, k) {
        ok, slot := WriteSlot(w, vs[k]);
        if !ok {
          return;
        }
      } else {
        slot := AbsentSlot(vs[k]);
        assert data + [] == data;
      }
      ListOneMore(ws, vs, mask, data, slot);
      ws := ws + [slot];
    }
    ok := true;
  }

  method WriteSlot(w: Buffer, v: Value) returns (ok: bool, ghost slot: Laid)
    modifies w
    ensures ok <==> Encodable(v)
    ensures ok ==> OrdersSlot(slot, v) && SupportedSlot(slot) && w.data == old(w.data) + EncodeSlot(slot)
  {
    ok := true;
    match v
    case StrSlot(s) =>
      slot := StrSlot(s);
      w.data := w.data + Shortstr(s);
    case TableSlot(m) =>
      ghost var entries;
      ok, entries := WriteTable(w, m);
      slot := TableSlot(entries);
    case OctetSlot(n) =>
      slot := OctetSlot(n);
      w.data := w.data + BigEndian(n, 1);
    case TimeSlot(at) =>
      slot := TimeSlot(at);
      w.data := w.data + BigEndian(Unsigned(at.sec, 8), 8);
  }

  ghost function AbsentSlot(v: Value): (w: Laid)
    requires v == Default(KindOf(v))
    ensures OrdersSlot(w, v) && SupportedSlot(w)
  {
    match v
    case StrSlot(s) => StrSlot(s)
    case TableSlot(_) => TableSlot([])
    case OctetSlot(n) => OctetSlot(n)
    case TimeSlot(at) => TimeSlot(at)
  }

  lemma {:induction false} EncodeSlotsAppend(ws: seq<Laid>, slot: Laid, mask: Mask, k: nat)
    requires k <= |ws| < 16 && SupportedSlots(ws) && SupportedSlots(ws + [slot]) && SupportedSlot(slot)
    ensures EncodeSlots(ws + [slot], mask, k) == EncodeSlots(ws, mask, k) + Piece(slot, mask, |ws|)
    decreases |ws| - k
  {
    var all, last := ws + [slot], Piece(slot, mask, |ws|);
    if k < |ws| {
      EncodeSlotsAppend(ws, slot, mask, k + 1);
      Assoc(Piece(ws[k], mask, k), EncodeSlots(ws, mask, k + 1), last);
    } else {
      assert EncodeSlots(all, mask, k + 1) == [];
    }
  }

  lemma {:induction false} MaskIsPresence(mask: Mask, ws: seq<Laid>, vs: seq<Value>)
    requires |vs| <= 16 && OrdersSlots(ws, vs) && IsMask(mask, vs)
    ensures mask == MaskOf(ws)
  {
    forall j | 0 <= j < 16
      ensures mask[j] == MaskOf(ws)[j]
    {
      if 15 - j < |vs| {
        AbsentIsDefault(ws[15 - j], vs[15 - j]);
      }
    }
  }
}
