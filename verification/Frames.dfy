/** Frames on the wire: any sequence of frames written back to back is read back as the same sequence. */
module Frames {
  import opened Bytes
  import opened Primitives
  import opened Fields
  import opened FieldTheorems
  import opened MethodFrames
  import opened Headers

  const FRAME_METHOD: byte := 1
  const FRAME_HEADER: byte := 2
  const FRAME_BODY: byte := 3
  const FRAME_HEARTBEAT: byte := 8
  const FRAME_END: byte := 206

  /** `T` is how tables are held: maps in a frame, sequences of entries while it is being written. */
  datatype Frame<+T> =
    | MethodFrame(channel: uint16, m: Method<T>)
    | HeaderFrame(channel: uint16, classId: uint16, weight: uint16, size: uint64, props: Properties<T>)
    | BodyFrame(channel: uint16, body: bytes)
    | HeartbeatFrame(channel: uint16)

  type Laid = Frame<seq<Entry>>
  type Value = Frame<FieldTable>

  ghost predicate OrdersFrame(w: Laid, v: Value) {
    match w
    case MethodFrame(ch, m) => v.MethodFrame? && v.channel == ch && OrdersMethod(m, v.m)
    case HeaderFrame(ch, classId, weight, size, props) =>
      && v.HeaderFrame? && v.channel == ch && v.classId == classId && v.weight == weight && v.size == size
      && OrdersProperties(props, v.props)
    case BodyFrame(ch, body) => v == BodyFrame(ch, body)
    case HeartbeatFrame(ch) => v == HeartbeatFrame(ch)
  }

  function NormalFrame(v: Value): Value {
    match v
    case MethodFrame(_, m) => v.(m := NormalMethod(m))
    case HeaderFrame(_, _, _, _, props) => v.(props := NormalProperties(props))
    case _ => v
  }

  function NormalFrames(vs: seq<Value>): seq<Value> {
    seq(|vs|, i requires 0 <= i < |vs| => NormalFrame(vs[i]))
  }

  // ----- writing -----

  predicate Encodable(spec: Spec, f: Laid) {
    match f
    case MethodFrame(_, m) => FitsMethod(spec, m)
    case HeaderFrame(_, _, _, _, props) => FitsProperties(props)
    case _ => true
  }

  function FrameType(f: Laid): byte {
    match f
    case MethodFrame(_, _) => FRAME_METHOD
    case HeaderFrame(_, _, _, _, _) => FRAME_HEADER
    case BodyFrame(_, _) => FRAME_BODY
    case HeartbeatFrame(_) => FRAME_HEARTBEAT
  }

  function HeaderPrefix(classId: uint16, weight: uint16, size: uint64): bytes {
    BigEndian(classId, 2) + BigEndian(weight, 2) + BigEndian(size, 8)
  }

  function Payload(spec: Spec, f: Laid): bytes
    requires Encodable(spec, f)
  {
    match f
    case MethodFrame(_, m) => EncodeMethod(spec, m)
    case HeaderFrame(_, classId, weight, size, props) =>
      HeaderPrefix(classId, weight, size) + EncodeProperties(Slots(props))
    case BodyFrame(_, body) => body
    case HeartbeatFrame(_) => []
  }

  /** writeFrame: type, channel and the low 32 bits of the size, then the payload and the end octet. */
  function WriteFrame(typ: byte, channel: uint16, payload: bytes): bytes {
    [typ] + BigEndian(channel, 2) + BigEndian(|payload| % 0x1_0000_0000, 4) + payload + [FRAME_END]
  }

  function EncodeFrame(spec: Spec, f: Laid): bytes
    requires Encodable(spec, f)
  {
    WriteFrame(FrameType(f), f.channel, Payload(spec, f))
  }

  /** The frame can be written, and its payload is shorter than 2^32 octets. */
  predicate FitsFrame(spec: Spec, f: Laid) {
    Encodable(spec, f) && |Payload(spec, f)| < 0x1_0000_0000
  }

  // ----- reading -----

  function ParseHeader(channel: uint16, data: bytes): (r: Read<Value>)
    ensures |r.rest| <= |data|
  {
    var (classId, d1) :- ReadUint(data, 2);
    var (weight, d2) :- ReadUint(d1, 2);
    var (size, d3) :- ReadUint(d2, 8);
    var (slots, rest) :- DecodeProperties(SLOT_KINDS, d3);
    Ok(HeaderFrame(channel, classId, weight, size, FromSlots(slots)), rest)
  }

  function ParsePayload(spec: Spec, typ: byte, channel: uint16, size: uint32, data: bytes): (r: Read<Value>)
    requires ValidSpec(spec)
    ensures |r.rest| <= |data|
  {
    if typ == FRAME_METHOD then
      var (m, rest) :- DecodeMethod(spec, data); Ok(MethodFrame(channel, m), rest)
    else if typ == FRAME_HEADER then
      ParseHeader(channel, data)
    else if typ == FRAME_BODY then
      var (body, rest) :- ReadFull(data, size); Ok(BodyFrame(channel, body), rest)
    else if typ == FRAME_HEARTBEAT then
      if size > 0 then Err(HeartbeatPayload, data) else Ok(HeartbeatFrame(channel), data)
    else
      Err(BadFrame, data)
  }

  function Number(s: bytes, w: nat): (n: nat)
    requires Width(w) && |s| == w
    ensures n < Limit(w)
  {
    LimitIsPow256(w);
    FromBigEndian(s)
  }

  /** ReadFrame */
  function ReadFrame(spec: Spec, data: bytes): (r: Read<Value>)
    requires ValidSpec(spec)
    ensures r.Ok? ==> |r.rest| < |data|
  {
    var (h, d) :- ReadFull(data, 7);
    var (f, d') :- ParsePayload(spec, h[0], Number(h[1..3], 2), Number(h[3..7], 4), d);
    var (end, rest) :- ReadFull(d', 1);
    if end[0] != FRAME_END then Err(BadFrame, rest) else Ok(f, rest)
  }

  // ----- the reader inverts the writer -----

  lemma {:induction false} FrameHeader(typ: byte, channel: uint16, payload: bytes, rest: bytes)
    requires |payload| < 0x1_0000_0000
    ensures var r := ReadFull(WriteFrame(typ, channel, payload) + rest, 7);
            && r.Ok? && r.rest == payload + ([FRAME_END] + rest)
            && r.value[0] == typ
            && Number(r.value[1..3], 2) == channel
            && Number(r.value[3..7], 4) == |payload|
  {
    SmallMod(|payload|, 0x1_0000_0000);
    var c, n := BigEndian(channel, 2), BigEndian(|payload|, 4);
    var h := [typ] + c + n;
    var data := WriteFrame(typ, channel, payload) + rest;
    assert data == h + (payload + ([FRAME_END] + rest));
    assert data[..7] == h && data[7..] == payload + ([FRAME_END] + rest);
    assert h[1..3] == c && h[3..7] == n;
    LimitIsPow256(2);
    LimitIsPow256(4);
    BigEndianRoundTrip(channel, 2);
    BigEndianRoundTrip(|payload|, 4);
  }

  lemma {:induction false} HeaderPayloadRoundTrip(w: Laid, v: Value, rest: bytes)
    requires w.HeaderFrame? && FitsProperties(w.props) && OrdersFrame(w, v)
    ensures ParseHeader(w.channel, HeaderPrefix(w.classId, w.weight, w.size) + EncodeProperties(Slots(w.props)) + rest)
            == Ok(NormalFrame(v), rest)
  {
    var d3 := EncodeProperties(Slots(w.props)) + rest;
    var d2 := BigEndian(w.size, 8) + d3;
    var d1 := BigEndian(w.weight, 2) + d2;
    assert HeaderPrefix(w.classId, w.weight, w.size) + EncodeProperties(Slots(w.props)) + rest
        == BigEndian(w.classId, 2) + d1;
    ReadUintInverts(w.classId, 2, d1);
    ReadUintInverts(w.weight, 2, d2);
    ReadUintInverts(w.size, 8, d3);
    RecordRoundTrip(w.props, v.props, rest);
  }

  lemma {:induction false} PayloadRoundTrip(spec: Spec, w: Laid, v: Value, rest: bytes)
    requires ValidSpec(spec) && FitsFrame(spec, w) && OrdersFrame(w, v)
    ensures ParsePayload(spec, FrameType(w), w.channel, |Payload(spec, w)|, Payload(spec, w) + rest)
            == Ok(NormalFrame(v), rest)
  {
    match w
    case MethodFrame(ch, m) =>
      MethodRoundTrip(spec, m, v.m, rest);
    case HeaderFrame(_, _, _, _, _) =>
      HeaderPayloadRoundTrip(w, v, rest);
    case BodyFrame(ch, body) =>
      assert (body + rest)[..|body|] == body && (body + rest)[|body|..] == rest;
    case HeartbeatFrame(ch) =>
      assert [] + rest == rest;
  }

  lemma {:induction false} FrameRoundTrip(spec: Spec, w: Laid, v: Value, rest: bytes)
    requires ValidSpec(spec) && FitsFrame(spec, w) && OrdersFrame(w, v)
    ensures ReadFrame(spec, EncodeFrame(spec, w) + rest) == Ok(NormalFrame(v), rest)
  {
    FrameHeader(FrameType(w), w.channel, Payload(spec, w), rest);
    PayloadRoundTrip(spec, w, v, [FRAME_END] + rest);
    assert ([FRAME_END] + rest)[..1] == [FRAME_END] && ([FRAME_END] + rest)[1..] == rest;
  }

  /** The frames a reader gets from a stream until ReadFrame first fails, and how it failed. */
  function ReadFrames(spec: Spec, data: bytes): (r: (seq<Value>, Error))
    requires ValidSpec(spec)
    decreases |data|
  {
    match ReadFrame(spec, data)
    case Ok(f, rest) =>
      var (fs, e) := ReadFrames(spec, rest);
      ([f] + fs, e)
    case Err(e, _) => ([], e)
  }

  ghost predicate OrdersFrames(ws: seq<Laid>, vs: seq<Value>) {
    |ws| == |vs| && forall i | 0 <= i < |ws| :: OrdersFrame(ws[i], vs[i])
  }

  predicate FitsFrames(spec: Spec, ws: seq<Laid>) {
    forall i | 0 <= i < |ws| :: FitsFrame(spec, ws[i])
  }

  function EncodeFrames(spec: Spec, ws: seq<Laid>): bytes
    requires FitsFrames(spec, ws)
  {
    if ws == [] then [] else EncodeFrame(spec, ws[0]) + EncodeFrames(spec, ws[1..])
  }

  /** Frames that fit on the wire, with one layout of the tables in them. */
  ghost predicate Sendable(spec: Spec, ws: seq<Laid>, vs: seq<Value>) {
    FitsFrames(spec, ws) && OrdersFrames(ws, vs)
  }

  ghost predicate Inverts(spec: Spec, ws: seq<Laid>, vs: seq<Value>)
    requires ValidSpec(spec) && Sendable(spec, ws, vs)
  {
    ReadFrames(spec, EncodeFrames(spec, ws)) == (NormalFrames(vs), EOF)
  }

  lemma {:induction false} SendableTail(spec: Spec, ws: seq<Laid>, vs: seq<Value>)
    requires Sendable(spec, ws, vs) && ws != []
    ensures |ws| == |vs| && FitsFrame(spec, ws[0]) && OrdersFrame(ws[0], vs[0])
    ensures Sendable(spec, ws[1..], vs[1..])
  {
  }

  lemma {:induction false} ReadFramesCons(spec: Spec, data: bytes, f: Value, rest: bytes, fs: seq<Value>)
    requires ValidSpec(spec) && ReadFrame(spec, data) == Ok(f, rest)
    requires ReadFrames(spec, rest) == (fs, EOF)
    ensures ReadFrames(spec, data) == ([f] + fs, EOF)
  {
  }

  lemma {:induction false} InvertsStep(spec: Spec, ws: seq<Laid>, vs: seq<Value>)
    requires ValidSpec(spec) && Sendable(spec, ws, vs) && ws != []
    requires Sendable(spec, ws[1..], vs[1..]) && Inverts(spec, ws[1..], vs[1..])
    ensures Inverts(spec, ws, vs)
  {
    SendableTail(spec, ws, vs);
    var rest := EncodeFrames(spec, ws[1..]);
    FrameRoundTrip(spec, ws[0], vs[0], rest);
    ReadFramesCons(spec, EncodeFrame(spec, ws[0]) + rest, NormalFrame(vs[0]), rest, NormalFrames(vs[1..]));
    assert NormalFrames(vs) == [NormalFrame(vs[0])] + NormalFrames(vs[1..]);
  }

  /** Frames written back to back are read back, in order, and then the input ends cleanly. */
  lemma {:induction false} FramesRoundTrip(spec: Spec, ws: seq<Laid>, vs: seq<Value>)
    requires ValidSpec(spec) && Sendable(spec, ws, vs)
    ensures ReadFrames(spec, EncodeFrames(spec, ws)) == (NormalFrames(vs), EOF)
  {
    if ws == [] {
      assert NormalFrames(vs) == [];
    } else {
      SendableTail(spec, ws, vs);
      FramesRoundTrip(spec, ws[1..], vs[1..]);
      InvertsStep(spec, ws, vs);
    }
  }
}
