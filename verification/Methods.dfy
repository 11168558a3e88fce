/** The generated method readers and writers, driven by the field sets that they are generated from. */
module Methods {
  import opened Bytes
  import opened Primitives
  import opened Fields
  import opened FieldTheorems
  import opened Fieldsets

  type Sets = seq<Fieldset<()>>

  /** A field of a method. `T` is how a table is held: a map in a message, a sequence of entries (one
      iteration order of the map) while it is being written. */
  datatype Arg<+T> =
    | Bit(b: bool)
    | Octet(octet: byte)
    | Short(short: uint16)
    | Long(long: uint32)
    | LongLong(longlong: uint64)
    | ShortStr(s: bytes)
    | LongStr(l: bytes)
    | TableArg(t: T)

  type Value = Arg<FieldTable>
  type Laid = Arg<seq<Entry>>

  function KindOf<T>(a: Arg<T>): Kind {
    match a
    case Bit(_) => BitK
    case Octet(_) => OctetK
    case Short(_) => ShortK
    case Long(_) => LongK
    case LongLong(_) => LongLongK
    case ShortStr(_) => ShortstrK
    case LongStr(_) => LongstrK
    case TableArg(_) => TableK
  }

  /** The fields of a message agree in number and type with the field sets of its method. */
  predicate Typed<T>(sets: Sets, args: seq<Arg<T>>) {
    if sets == [] then args == [] else
    var n := |sets[0].fields|;
    && n <= |args|
    && (forall i | 0 <= i < n :: KindOf(args[i]) == sets[0].kind)
    && Typed(sets[1..], args[n..])
  }

  /** Every run of bits fits in the one octet that it is packed into. */
  predicate BitsFit(sets: Sets) {
    forall i | 0 <= i < |sets| :: sets[i].kind == BitK ==> |sets[i].fields| <= 8
  }

  predicate FitsArg(a: Laid) {
    match a
    case ShortStr(s) => |s| <= 0xFF
    case LongStr(s) => |s| <= MAX_INT32
    case TableArg(entries) => SupportedEntries(entries) && FitsTable(entries)
    case _ => true
  }

  predicate FitsArgs(args: seq<Laid>) {
    forall i | 0 <= i < |args| :: FitsArg(args[i])
  }

  ghost predicate OrdersArg(w: Laid, v: Value) {
    match w
    case TableArg(entries) => v.TableArg? && OrdersTable(entries, v.t)
    case Bit(b) => v == Bit(b)
    case Octet(n) => v == Octet(n)
    case Short(n) => v == Short(n)
    case Long(n) => v == Long(n)
    case LongLong(n) => v == LongLong(n)
    case ShortStr(s) => v == ShortStr(s)
    case LongStr(s) => v == LongStr(s)
  }

  ghost predicate OrdersArgs(ws: seq<Laid>, vs: seq<Value>) {
    |ws| == |vs| && forall i | 0 <= i < |ws| :: OrdersArg(ws[i], vs[i])
  }

  function NormalArg(v: Value): Value {
    if v.TableArg? then TableArg(NormalTable(v.t)) else v
  }

  function NormalArgs(vs: seq<Value>): seq<Value> {
    seq(|vs|, i requires 0 <= i < |vs| => NormalArg(vs[i]))
  }

  // ----- writing: the enc- templates -----

  function EncodeArg(a: Laid): bytes
    requires !a.Bit? && FitsArg(a)
  {
    match a
    case Octet(n) => BigEndian(n, 1)
    case Short(n) => BigEndian(n, 2)
    case Long(n) => BigEndian(n, 4)
    case LongLong(n) => BigEndian(n, 8)
    case ShortStr(s) => Shortstr(s)
    case LongStr(s) => Longstr(s)
    case TableArg(entries) => EncodeTable(entries)
  }

  function EncodePlain(args: seq<Laid>): bytes
    requires FitsArgs(args) && forall i | 0 <= i < |args| :: !args[i].Bit?
  {
    if args == [] then [] else EncodeArg(args[0]) + EncodePlain(args[1..])
  }

  /** bits |= 1 << off for every set bit of a run; `bits` is declared once per method and never cleared. */
  function OrBits<T>(bits: seq<bool>, args: seq<Arg<T>>): (r: seq<bool>)
    requires |bits| == 8
    ensures |r| == 8
  {
    seq(8, i requires 0 <= i < 8 => bits[i] || (i < |args| && args[i].Bit? && args[i].b))
  }

  function PackBits(bits: seq<bool>): byte
    requires |bits| == 8
  {
    BitsRoundTrip(bits);
    Pow2Values();
    FromBits(bits)
  }

  function EncodeSets(sets: Sets, args: seq<Laid>, bits: seq<bool>): bytes
    requires Typed(sets, args) && FitsArgs(args) && |bits| == 8
  {
    if sets == [] then [] else
    var n := |sets[0].fields|;
    if sets[0].kind == BitK then
      var bits' := OrBits(bits, args[..n]);
      [PackBits(bits')] + EncodeSets(sets[1..], args[n..], bits')
    else
      EncodePlain(args[..n]) + EncodeSets(sets[1..], args[n..], bits)
  }

  // ----- reading: the dec- templates -----

  function DecodeArg(kind: Kind, data: bytes): (r: Read<Value>)
    requires kind != BitK
    ensures |r.rest| <= |data|
  {
    match kind
    case OctetK => var (n, d) :- ReadUint(data, 1); Ok(Octet(n), d)
    case ShortK => var (n, d) :- ReadUint(data, 2); Ok(Short(n), d)
    case LongK => var (n, d) :- ReadUint(data, 4); Ok(Long(n), d)
    case LongLongK => var (n, d) :- ReadUint(data, 8); Ok(LongLong(n), d)
    case ShortstrK => var (s, d) :- ReadShortstr(data); Ok(ShortStr(s), d)
    case LongstrK => var (s, d) :- ReadLongstr(data); Ok(LongStr(s), d)
    case TableK => var (m, d) :- DecodeTable(data); Ok(TableArg(m), d)
  }

  function DecodePlain(kind: Kind, n: nat, data: bytes): (r: Read<seq<Value>>)
    requires kind != BitK
    ensures |r.rest| <= |data|
  {
    if n == 0 then Ok([], data) else
    var (v, d) :- DecodeArg(kind, data);
    var (vs, rest) :- DecodePlain(kind, n - 1, d);
    Ok([v] + vs, rest)
  }

  function UnpackBits(octet: byte, n: nat): seq<Value>
    requires n <= 8
  {
    seq(n, i requires 0 <= i < n => Bit(ToBits(octet, 8)[i]))
  }

  function DecodeSets(sets: Sets, data: bytes): (r: Read<seq<Value>>)
    requires BitsFit(sets)
    ensures |r.rest| <= |data|
  {
    if sets == [] then Ok([], data) else
    var n := |sets[0].fields|;
    if sets[0].kind == BitK then
      var (octet, d) :- ReadUint(data, 1);
      var (vs, rest) :- DecodeSets(sets[1..], d);
      Ok(UnpackBits(octet, n) + vs, rest)
    else
      var (v0, d) :- DecodePlain(sets[0].kind, n, data);
      var (vs, rest) :- DecodeSets(sets[1..], d);
      Ok(v0 + vs, rest)
  }

  // ----- the reader inverts the writer -----

  ghost predicate ArgInverts(w: Laid, v: Value, rest: bytes)
    requires !w.Bit? && FitsArg(w)
  {
    DecodeArg(KindOf(w), EncodeArg(w) + rest) == Ok(NormalArg(v), rest)
  }

  lemma {:induction false} ArgRoundTrip(w: Laid, v: Value, rest: bytes)
    requires !w.Bit? && FitsArg(w) && OrdersArg(w, v)
    ensures ArgInverts(w, v, rest)
  {
    if w.TableArg? {
      TableArgRoundTrip(w, v, rest);
    } else if w.ShortStr? || w.LongStr? {
      StrArgRoundTrip(w, v, rest);
    } else {
      UintArgRoundTrip(w, v, rest);
    }
  }

  lemma {:induction false} UintArgRoundTrip(w: Laid, v: Value, rest: bytes)
    requires (w.Octet? || w.Short? || w.Long? || w.LongLong?) && OrdersArg(w, v)
    ensures ArgInverts(w, v, rest)
  {
    match w
    case Octet(n) =>
      ReadUintInverts(n, 1, rest);
    case Short(n) =>
      ReadUintInverts(n, 2, rest);
    case Long(n) =>
      ReadUintInverts(n, 4, rest);
    case LongLong(n) =>
      ReadUintInverts(n, 8, rest);
  }

  lemma {:induction false} StrArgRoundTrip(w: Laid, v: Value, rest: bytes)
    requires (w.ShortStr? || w.LongStr?) && FitsArg(w) && OrdersArg(w, v)
    ensures ArgInverts(w, v, rest)
  {
    match w
    case ShortStr(s) =>
      ShortstrFaithful(s, rest);
    case LongStr(s) =>
      LongstrFaithful(s, rest);
  }

  lemma {:induction false} TableArgRoundTrip(w: Laid, v: Value, rest: bytes)
    requires w.TableArg? && FitsArg(w) && OrdersArg(w, v)
    ensures ArgInverts(w, v, rest)
  {
    TableRoundTrip(w.t, rest);
    TableOrderIrrelevant(w.t, v.t);
  }

  lemma {:induction false} DecodePlainCons(kind: Kind, n: nat, data: bytes, v: Value, d: bytes, vs: seq<Value>, rest: bytes)
    requires kind != BitK && n > 0
    requires DecodeArg(kind, data) == Ok(v, d) && DecodePlain(kind, n - 1, d) == Ok(vs, rest)
    ensures DecodePlain(kind, n, data) == Ok([v] + vs, rest)
  {
  }

  /** A run of fields of one type that are not bits, with one layout of the tables in it. */
  ghost predicate PlainRun(kind: Kind, ws: seq<Laid>, vs: seq<Value>) {
    && kind != BitK && (forall i | 0 <= i < |ws| :: KindOf(ws[i]) == kind && !ws[i].Bit?)
    && FitsArgs(ws) && OrdersArgs(ws, vs)
  }

  ghost predicate PlainInverts(kind: Kind, ws: seq<Laid>, vs: seq<Value>, rest: bytes)
    requires PlainRun(kind, ws, vs)
  {
    DecodePlain(kind, |ws|, EncodePlain(ws) + rest) == Ok(NormalArgs(vs), rest)
  }

  lemma {:induction false} PlainInvertsStep(kind: Kind, ws: seq<Laid>, vs: seq<Value>, rest: bytes)
    requires PlainRun(kind, ws, vs) && ws != []
    requires PlainRun(kind, ws[1..], vs[1..]) && PlainInverts(kind, ws[1..], vs[1..], rest)
    ensures PlainInverts(kind, ws, vs, rest)
  {
    var tail := EncodePlain(ws[1..]) + rest;
    EncodePlainCons(ws, rest);
    ArgRoundTrip(ws[0], vs[0], tail);
    DecodePlainCons(kind, |ws|, EncodeArg(ws[0]) + tail, NormalArg(vs[0]), tail, NormalArgs(vs[1..]), rest);
    NormalArgsCons(vs);
  }

  lemma {:induction false} EncodePlainCons(ws: seq<Laid>, rest: bytes)
    requires FitsArgs(ws) && (forall i | 0 <= i < |ws| :: !ws[i].Bit?) && ws != []
    ensures EncodePlain(ws) + rest == EncodeArg(ws[0]) + (EncodePlain(ws[1..]) + rest)
  {
  }

  lemma {:induction false} NormalArgsCons(vs: seq<Value>)
    requires vs != []
    ensures NormalArgs(vs) == [NormalArg(vs[0])] + NormalArgs(vs[1..])
  {
  }

  lemma {:induction false} PlainSetRoundTrip(kind: Kind, ws: seq<Laid>, vs: seq<Value>, rest: bytes)
    requires PlainRun(kind, ws, vs)
    ensures PlainInverts(kind, ws, vs, rest)
  {
    if ws == [] {
      assert [] + rest == rest && NormalArgs(vs) == [];
    } else {
      PlainSetRoundTrip(kind, ws[1..], vs[1..], rest);
      PlainInvertsStep(kind, ws, vs, rest);
    }
  }

  lemma {:induction false} UnpackPacked(bits: seq<bool>, n: nat)
    requires |bits| == 8 && n <= 8
    ensures UnpackBits(PackBits(bits), n) == seq(n, i requires 0 <= i < n => Bit(bits[i]))
  {
    BitsRoundTrip(bits);
  }

  /** What a reader makes of a message: a run of bits also shows what earlier runs left in `bits`. */
  ghost function Arrived(sets: Sets, vs: seq<Value>, bits: seq<bool>): seq<Value>
    requires Typed(sets, vs) && BitsFit(sets) && |bits| == 8
  {
    if sets == [] then [] else
    var n := |sets[0].fields|;
    if sets[0].kind == BitK then
      var bits' := OrBits(bits, vs[..n]);
      seq(n, i requires 0 <= i < n => Bit(bits'[i])) + Arrived(sets[1..], vs[n..], bits')
    else
      NormalArgs(vs[..n]) + Arrived(sets[1..], vs[n..], bits)
  }

  lemma {:induction false} OrdersTyped(sets: Sets, ws: seq<Laid>, vs: seq<Value>)
    requires Typed(sets, ws) && OrdersArgs(ws, vs)
    ensures Typed(sets, vs)
  {
    if sets != [] {
      var n := |sets[0].fields|;
      OrdersTyped(sets[1..], ws[n..], vs[n..]);
    }
  }

  lemma {:induction false} OrBitsOrders(bits: seq<bool>, ws: seq<Laid>, vs: seq<Value>)
    requires |bits| == 8 && OrdersArgs(ws, vs)
    ensures OrBits(bits, ws) == OrBits(bits, vs)
  {
    forall i | 0 <= i < 8
      ensures OrBits(bits, ws)[i] == OrBits(bits, vs)[i]
    {
      if i < |ws| {
        assert OrdersArg(ws[i], vs[i]);
      }
    }
  }

  /** A message, a layout of its tables, and field sets that fit them. */
  ghost predicate Sendable(sets: Sets, ws: seq<Laid>, vs: seq<Value>) {
    Typed(sets, ws) && Typed(sets, vs) && BitsFit(sets) && FitsArgs(ws) && OrdersArgs(ws, vs)
  }

  lemma {:induction false} SendableTail(sets: Sets, ws: seq<Laid>, vs: seq<Value>)
    requires Sendable(sets, ws, vs) && sets != []
    ensures var n := |sets[0].fields|;
            && n <= |ws| == |vs|
            && OrdersArgs(ws[..n], vs[..n])
            && Sendable(sets[1..], ws[n..], vs[n..])
  {
  }

  /** Reading back what was written for `sets` shows `Arrived`, whatever follows. */
  ghost predicate Inverts(sets: Sets, ws: seq<Laid>, vs: seq<Value>, bits: seq<bool>, rest: bytes)
    requires Sendable(sets, ws, vs) && |bits| == 8
  {
    DecodeSets(sets, EncodeSets(sets, ws, bits) + rest) == Ok(Arrived(sets, vs, bits), rest)
  }

  lemma {:induction false} DecodeBitSet(sets: Sets, octet: byte, tail: bytes, vs: seq<Value>, rest: bytes)
    requires BitsFit(sets) && sets != [] && sets[0].kind == BitK
    requires DecodeSets(sets[1..], tail) == Ok(vs, rest)
    ensures DecodeSets(sets, [octet] + tail) == Ok(UnpackBits(octet, |sets[0].fields|) + vs, rest)
  {
    OctetRoundTrip(octet, tail);
  }

  lemma {:induction false} EncodeBitSet(sets: Sets, ws: seq<Laid>, bits: seq<bool>, rest: bytes)
    requires Typed(sets, ws) && FitsArgs(ws) && |bits| == 8
    requires sets != [] && sets[0].kind == BitK
    ensures var n := |sets[0].fields|;
            var bits' := OrBits(bits, ws[..n]);
            EncodeSets(sets, ws, bits) + rest == [PackBits(bits')] + (EncodeSets(sets[1..], ws[n..], bits') + rest)
  {
  }

  lemma {:induction false} BitStep(sets: Sets, ws: seq<Laid>, vs: seq<Value>, bits: seq<bool>, rest: bytes)
    requires Sendable(sets, ws, vs) && |bits| == 8
    requires sets != [] && sets[0].kind == BitK
    requires var n := |sets[0].fields|;
             && Sendable(sets[1..], ws[n..], vs[n..])
             && Inverts(sets[1..], ws[n..], vs[n..], OrBits(bits, ws[..n]), rest)
    ensures Inverts(sets, ws, vs, bits, rest)
  {
    var n := |sets[0].fields|;
    SendableTail(sets, ws, vs);
    OrBitsOrders(bits, ws[..n], vs[..n]);
    var bits' := OrBits(bits, ws[..n]);
    var tail := EncodeSets(sets[1..], ws[n..], bits') + rest;
    EncodeBitSet(sets, ws, bits, rest);
    DecodeBitSet(sets, PackBits(bits'), tail, Arrived(sets[1..], vs[n..], bits'), rest);
    UnpackPacked(bits', n);
  }

  lemma {:induction false} DecodePlainSet(sets: Sets, data: bytes, v0: seq<Value>, tail: bytes, vs: seq<Value>, rest: bytes)
    requires BitsFit(sets) && sets != [] && sets[0].kind != BitK
    requires DecodePlain(sets[0].kind, |sets[0].fields|, data) == Ok(v0, tail)
    requires DecodeSets(sets[1..], tail) == Ok(vs, rest)
    ensures DecodeSets(sets, data) == Ok(v0 + vs, rest)
  {
  }

  lemma {:induction false} EncodePlainSet(sets: Sets, ws: seq<Laid>, bits: seq<bool>, rest: bytes)
    requires Typed(sets, ws) && FitsArgs(ws) && |bits| == 8
    requires sets != [] && sets[0].kind != BitK
    ensures var n := |sets[0].fields|;
            && (forall i | 0 <= i < n :: KindOf(ws[..n][i]) == sets[0].kind && !ws[..n][i].Bit?)
            && EncodeSets(sets, ws, bits) + rest
               == EncodePlain(ws[..n]) + (EncodeSets(sets[1..], ws[n..], bits) + rest)
  {
  }

  lemma {:induction false} PlainStep(sets: Sets, ws: seq<Laid>, vs: seq<Value>, bits: seq<bool>, rest: bytes)
    requires Sendable(sets, ws, vs) && |bits| == 8
    requires sets != [] && sets[0].kind != BitK
    requires var n := |sets[0].fields|;
             && Sendable(sets[1..], ws[n..], vs[n..])
             && Inverts(sets[1..], ws[n..], vs[n..], bits, rest)
    ensures Inverts(sets, ws, vs, bits, rest)
  {
    var n := |sets[0].fields|;
    SendableTail(sets, ws, vs);
    var tail := EncodeSets(sets[1..], ws[n..], bits) + rest;
    EncodePlainSet(sets, ws, bits, rest);
    PlainSetRoundTrip(sets[0].kind, ws[..n], vs[..n], tail);
    DecodePlainSet(sets, EncodePlain(ws[..n]) + tail, NormalArgs(vs[..n]), tail,
                   Arrived(sets[1..], vs[n..], bits), rest);
  }

  lemma {:induction false} SetsRoundTrip(sets: Sets, ws: seq<Laid>, vs: seq<Value>, bits: seq<bool>, rest: bytes)
    requires Sendable(sets, ws, vs) && |bits| == 8
    ensures DecodeSets(sets, EncodeSets(sets, ws, bits) + rest) == Ok(Arrived(sets, vs, bits), rest)
  {
    if sets == [] {
      assert [] + rest == rest;
    } else {
      var n := |sets[0].fields|;
      SendableTail(sets, ws, vs);
      if sets[0].kind == BitK {
        SetsRoundTrip(sets[1..], ws[n..], vs[n..], OrBits(bits, ws[..n]), rest);
        BitStep(sets, ws, vs, bits, rest);
      } else {
        SetsRoundTrip(sets[1..], ws[n..], vs[n..], bits, rest);
        PlainStep(sets, ws, vs, bits, rest);
      }
    }
  }

  /** No run of bits has a clear bit where an earlier run of the same message had a set one. */
  ghost predicate Fresh(sets: Sets, vs: seq<Value>, bits: seq<bool>)
    requires Typed(sets, vs) && BitsFit(sets) && |bits| == 8
  {
    if sets == [] then true else
    var n := |sets[0].fields|;
    if sets[0].kind == BitK then
      && (forall i | 0 <= i < n :: bits[i] ==> vs[i].b)
      && Fresh(sets[1..], vs[n..], OrBits(bits, vs[..n]))
    else
      Fresh(sets[1..], vs[n..], bits)
  }

  /** The message arrives as it was sent exactly when no bits were left over from an earlier run. */
  lemma {:induction false} ArrivedFaithful(sets: Sets, vs: seq<Value>, bits: seq<bool>)
    requires Typed(sets, vs) && BitsFit(sets) && |bits| == 8
    ensures Arrived(sets, vs, bits) == NormalArgs(vs) <==> Fresh(sets, vs, bits)
    ensures |Arrived(sets, vs, bits)| == |vs|
  {
    if sets != [] {
      var n := |sets[0].fields|;
      var b1, b2 := NormalArgs(vs[..n]), NormalArgs(vs[n..]);
      assert NormalArgs(vs) == b1 + b2;
      if sets[0].kind == BitK {
        var bits' := OrBits(bits, vs[..n]);
        ArrivedFaithful(sets[1..], vs[n..], bits');
        var a1 := seq(n, i requires 0 <= i < n => Bit(bits'[i]));
        BitsArrived(a1, vs[..n], bits);
        ConcatEqual(a1, Arrived(sets[1..], vs[n..], bits'), b1, b2);
      } else {
        ArrivedFaithful(sets[1..], vs[n..], bits);
        ConcatEqual(b1, Arrived(sets[1..], vs[n..], bits), b1, b2);
      }
    }
  }

  lemma {:induction false} ConcatEqual<T>(a1: seq<T>, a2: seq<T>, b1: seq<T>, b2: seq<T>)
    requires |a1| == |b1|
    ensures a1 + a2 == b1 + b2 <==> a1 == b1 && a2 == b2
  {
    if a1 + a2 == b1 + b2 {
      assert (a1 + a2)[..|a1|] == a1 && (a1 + a2)[|a1|..] == a2;
      assert (b1 + b2)[..|b1|] == b1 && (b1 + b2)[|b1|..] == b2;
    }
  }

  lemma {:induction false} BitsArrived(a: seq<Value>, vs: seq<Value>, bits: seq<bool>)
    requires |bits| == 8 && |a| == |vs| <= 8 && forall i | 0 <= i < |vs| :: vs[i].Bit?
    requires forall i | 0 <= i < |vs| :: a[i] == Bit(OrBits(bits, vs)[i])
    ensures a == NormalArgs(vs) <==> forall i | 0 <= i < |vs| :: bits[i] ==> vs[i].b
  {
    var b := NormalArgs(vs);
    assert forall i | 0 <= i < |vs| :: a[i] == b[i] <==> (bits[i] ==> vs[i].b);
  }

  // ----- one run of bits is enough to be faithful -----

  function BitSets(sets: Sets): nat {
    if sets == [] then 0 else (if sets[0].kind == BitK then 1 else 0) + BitSets(sets[1..])
  }

  /** With at most one run of bits nothing can be left over. */
  lemma {:induction false} OneRunIsFresh(sets: Sets, vs: seq<Value>, bits: seq<bool>)
    requires Typed(sets, vs) && BitsFit(sets) && |bits| == 8
    requires BitSets(sets) == 0 || (BitSets(sets) == 1 && forall i | 0 <= i < 8 :: !bits[i])
    ensures Fresh(sets, vs, bits)
  {
    if sets != [] {
      var n := |sets[0].fields|;
      var bits' := if sets[0].kind == BitK then OrBits(bits, vs[..n]) else bits;
      OneRunIsFresh(sets[1..], vs[n..], bits');
    }
  }

  const NO_BITS: seq<bool> := [false, false, false, false, false, false, false, false]

  /** The generated reader inverts the generated writer, and consumes exactly what it wrote. */
  lemma {:induction false} MessageRoundTrip(sets: Sets, ws: seq<Laid>, vs: seq<Value>, rest: bytes)
    requires Typed(sets, ws) && BitsFit(sets) && FitsArgs(ws) && OrdersArgs(ws, vs)
    requires BitSets(sets) <= 1
    ensures DecodeSets(sets, EncodeSets(sets, ws, NO_BITS) + rest) == Ok(NormalArgs(vs), rest)
  {
    OrdersTyped(sets, ws, vs);
    SetsRoundTrip(sets, ws, vs, NO_BITS, rest);
    OneRunIsFresh(sets, vs, NO_BITS);
    ArrivedFaithful(sets, vs, NO_BITS);
  }

  /** With two runs of bits it need not: the first bit leaks into the second run. */
  lemma {:induction false} TwoRunsLeak()
    ensures exists sets: Sets, vs: seq<Value> ::
              BitSets(sets) == 2 && BitsFit(sets) && Typed(sets, vs) && Arrived(sets, vs, NO_BITS) != NormalArgs(vs)
  {
    var sets: Sets := [Fieldset(BitK, [()]), Fieldset(OctetK, [()]), Fieldset(BitK, [()])];
    var vs: seq<Value> := [Bit(true), Octet(0), Bit(false)];
    assert sets[1..][1..][1..] == [] && vs[1..][1..][1..] == [];
    assert BitSets(sets[1..][1..]) == 1;
    assert BitSets(sets[1..]) == 1;
    assert Typed(sets[1..][1..], vs[1..][1..]);
    assert Typed(sets[1..], vs[1..]);
    var bits' := OrBits(NO_BITS, vs[..1]);
    assert vs[..1] == [Bit(true)] && bits'[0];
    assert sets[1..][1..][0] == Fieldset(BitK, [()]) && vs[1..][1..][0] == Bit(false);
    assert !Fresh(sets[1..][1..], vs[1..][1..], bits');
    assert !Fresh(sets[1..], vs[1..], bits');
    ArrivedFaithful(sets, vs, NO_BITS);
  }
}
