/** The table-driven writer against the generated code: the octets of queue.declare, written out. */
module Layouts {
  import opened Bytes
  import opened Primitives
  import opened Fields
  import opened Fieldsets
  import opened Methods
  import opened MethodFrames
  import opened Options
  import opened Spec091

  function Flag(b: bool, n: nat): nat {
    if b then n else 0
  }

  lemma {:induction false} FromBitsCons(b: bool, rest: seq<bool>)
    ensures FromBits([b] + rest) == Flag(b, 1) + 2 * FromBits(rest)
  {
    assert ([b] + rest)[1..] == rest;
  }

  const NONE: seq<bool> := [false, false, false]

  lemma {:induction false} NoFlags()
    ensures FromBits(NONE) == 0
  {
    assert NONE[1..] == [false, false] && NONE[1..][1..] == [false] && NONE[1..][1..][1..] == [];
    assert FromBits(NONE[1..][1..]) == 0;
    assert FromBits(NONE[1..]) == 0;
  }

  lemma {:induction false} FiveFlags(a: bool, b: bool, c: bool, d: bool, e: bool)
    ensures FromBits([a] + ([b] + ([c] + ([d] + ([e] + NONE)))))
            == Flag(a, 1) + Flag(b, 2) + Flag(c, 4) + Flag(d, 8) + Flag(e, 16)
  {
    NoFlags();
    FromBitsCons(e, NONE);
    FromBitsCons(d, [e] + NONE);
    FromBitsCons(c, [d] + ([e] + NONE));
    FromBitsCons(b, [c] + ([d] + ([e] + NONE)));
    FromBitsCons(a, [b] + ([c] + ([d] + ([e] + NONE))));
  }

  /** bits |= 1 << off, for up to five fields. */
  lemma {:induction false} PackedFlags(a: bool, b: bool, c: bool, d: bool, e: bool)
    ensures PackBits([a, b, c, d, e, false, false, false])
            == Flag(a, 1) + Flag(b, 2) + Flag(c, 4) + Flag(d, 8) + Flag(e, 16)
  {
    FiveFlags(a, b, c, d, e);
    assert [a] + ([b] + ([c] + ([d] + ([e] + NONE)))) == [a, b, c, d, e, false, false, false];
  }

  lemma {:induction false} UngroupSnoc(sets: Sets, s: Fieldset<()>)
    ensures Ungroup(sets + [s]) == Ungroup(sets) + Members(s)
  {
    assert (sets + [s])[..|sets|] == sets;
  }

  /** The field sets of queue.declare. */
  const QUEUE_DECLARE: Sets :=
    [Fieldset(ShortK, [()]), Fieldset(ShortstrK, [()]), Fieldset(BitK, [(), (), (), (), ()]), Fieldset(TableK, [()])]

  lemma {:induction false} QueueDeclareSets()
    ensures SigSets(Sig([ShortK, ShortstrK], 5, [TableK])) == QUEUE_DECLARE
  {
    var fields := SigFields(Sig([ShortK, ShortstrK], 5, [TableK]));
    var s1, s2, s3, s4 := QUEUE_DECLARE[0], QUEUE_DECLARE[1], QUEUE_DECLARE[2], QUEUE_DECLARE[3];
    UngroupSnoc([], s1);
    UngroupSnoc([s1], s2);
    UngroupSnoc([s1, s2], s3);
    UngroupSnoc([s1, s2, s3], s4);
    assert [] + [s1] == [s1] && [s1] + [s2] == [s1, s2] && [s1, s2] + [s3] == [s1, s2, s3];
    assert [s1, s2, s3] + [s4] == QUEUE_DECLARE;
    assert Ungroup(QUEUE_DECLARE) == fields;
    GroupUnique(QUEUE_DECLARE, fields);
  }

  /** A set of one field that is not a bit. */
  lemma {:induction false} OneField(sets: Sets, w: Laid, ws: seq<Laid>, bits: seq<bool>)
    requires sets != [] && |sets[0].fields| == 1 && sets[0].kind == KindOf(w) && !w.Bit? && FitsArg(w)
    requires Typed(sets[1..], ws) && FitsArgs(ws) && |bits| == 8
    ensures Typed(sets, [w] + ws) && FitsArgs([w] + ws)
    ensures EncodeSets(sets, [w] + ws, bits) == EncodeArg(w) + EncodeSets(sets[1..], ws, bits)
  {
    var all := [w] + ws;
    assert all[..1] == [w] && all[1..] == ws;
    OnePlain(w);
  }

  lemma {:induction false} OnePlain(w: Laid)
    requires !w.Bit? && FitsArg(w)
    ensures EncodePlain([w]) == EncodeArg(w)
  {
    assert [w][1..] == [] && EncodeArg(w) + [] == EncodeArg(w);
  }

  /** A set of bits, the first of the message. */
  lemma {:induction false} OneBitRun(sets: Sets, flags: seq<Laid>, ws: seq<Laid>, bits: seq<bool>)
    requires sets != [] && sets[0].kind == BitK && |sets[0].fields| == |flags| <= 8
    requires forall i | 0 <= i < |flags| :: flags[i].Bit?
    requires Typed(sets[1..], ws) && FitsArgs(ws) && bits == OrBits(NO_BITS, flags)
    ensures Typed(sets, flags + ws) && FitsArgs(flags + ws)
    ensures EncodeSets(sets, flags + ws, NO_BITS) == [PackBits(bits)] + EncodeSets(sets[1..], ws, bits)
  {
    var all := flags + ws;
    assert all[..|flags|] == flags && all[|flags|..] == ws;
  }

  lemma {:induction false} FiveBits(a: bool, b: bool, c: bool, d: bool, e: bool)
    ensures OrBits<seq<Entry>>(NO_BITS, [Bit(a), Bit(b), Bit(c), Bit(d), Bit(e)]) == [a, b, c, d, e, false, false, false]
  {
  }

  /** The arguments of queue.declare on the wire. */
  lemma {:induction false} QueueDeclareBody(reserved: uint16, queue: bytes, flags: seq<Laid>, bits: seq<bool>, entries: seq<Entry>)
    requires |queue| <= 0xFF && SupportedEntries(entries) && FitsTable(entries)
    requires |flags| == 5 && (forall i | 0 <= i < 5 :: flags[i].Bit?) && bits == OrBits(NO_BITS, flags)
    ensures var args := [Short(reserved)] + ([ShortStr(queue)] + (flags + [TableArg(entries)]));
            && Typed(QUEUE_DECLARE, args) && FitsArgs(args)
            && EncodeSets(QUEUE_DECLARE, args, NO_BITS)
               == BigEndian(reserved, 2) + (Shortstr(queue) + ([PackBits(bits)] + EncodeTable(entries)))
  {
    var sets := QUEUE_DECLARE;
    var table: Laid := TableArg(entries);
    assert sets[3..][1..] == [] && sets[2..][1..] == sets[3..] && sets[1..][1..] == sets[2..];
    OneField(sets[3..], table, [], bits);
    assert [table] + [] == [table] && EncodeTable(entries) + [] == EncodeTable(entries);
    OneBitRun(sets[2..], flags, [table], bits);
    OneField(sets[1..], ShortStr(queue), flags + [table], NO_BITS);
    OneField(sets, Short(reserved), [ShortStr(queue)] + (flags + [table]), NO_BITS);
  }

  /** queueDeclare.write: two reserved octets, the queue name, one octet of five flags from the lowest bit
      up, and the arguments. */
  lemma {:induction false} QueueDeclareOctets(reserved: uint16, queue: bytes, passive: bool, durable: bool, exclusive: bool,
                           autoDelete: bool, noWait: bool, entries: seq<Entry>)
    requires |queue| <= 0xFF && SupportedEntries(entries) && FitsTable(entries)
    ensures var flags := [Bit(passive), Bit(durable), Bit(exclusive), Bit(autoDelete), Bit(noWait)];
            var m := Method(50, 10, [Short(reserved)] + ([ShortStr(queue)] + (flags + [TableArg(entries)])));
            && FitsMethod(Amqp091, m)
            && EncodeMethod(Amqp091, m)
               == BigEndian(50, 2) + BigEndian(10, 2)
                  + (BigEndian(reserved, 2) + (Shortstr(queue)
                  + ([Flag(passive, 1) + Flag(durable, 2) + Flag(exclusive, 4) + Flag(autoDelete, 8) + Flag(noWait, 16)]
                  + EncodeTable(entries))))
  {
    QueueDeclareSets();
    assert Amqp091(50, 10) == Some(Sig([ShortK, ShortstrK], 5, [TableK]));
    FiveBits(passive, durable, exclusive, autoDelete, noWait);
    PackedFlags(passive, durable, exclusive, autoDelete, noWait);
    QueueDeclareBody(reserved, queue, [Bit(passive), Bit(durable), Bit(exclusive), Bit(autoDelete), Bit(noWait)],
                     [passive, durable, exclusive, autoDelete, noWait, false, false, false], entries);
  }

  // ----- basic.publish -----

  const BASIC_PUBLISH: Sets := [Fieldset(ShortK, [()]), Fieldset(ShortstrK, [(), ()]), Fieldset(BitK, [(), ()])]

  lemma {:induction false} BasicPublishSets()
    ensures SigSets(Sig([ShortK, ShortstrK, ShortstrK], 2, [])) == BASIC_PUBLISH
  {
    var fields := SigFields(Sig([ShortK, ShortstrK, ShortstrK], 2, []));
    var s1, s2, s3 := BASIC_PUBLISH[0], BASIC_PUBLISH[1], BASIC_PUBLISH[2];
    UngroupSnoc([], s1);
    UngroupSnoc([s1], s2);
    UngroupSnoc([s1, s2], s3);
    assert [] + [s1] == [s1] && [s1] + [s2] == [s1, s2] && [s1, s2] + [s3] == BASIC_PUBLISH;
    assert Ungroup(BASIC_PUBLISH) == fields;
    GroupUnique(BASIC_PUBLISH, fields);
  }

  /** A set of two fields that are not bits. */
  lemma {:induction false} TwoFields(sets: Sets, w: Laid, w': Laid, ws: seq<Laid>, bits: seq<bool>)
    requires sets != [] && |sets[0].fields| == 2 && sets[0].kind == KindOf(w) == KindOf(w') && !w.Bit? && !w'.Bit?
    requires FitsArg(w) && FitsArg(w') && Typed(sets[1..], ws) && FitsArgs(ws) && |bits| == 8
    ensures Typed(sets, [w, w'] + ws) && FitsArgs([w, w'] + ws)
    ensures EncodeSets(sets, [w, w'] + ws, bits) == EncodeArg(w) + EncodeArg(w') + EncodeSets(sets[1..], ws, bits)
  {
    var all := [w, w'] + ws;
    assert all[..2] == [w, w'] && all[2..] == ws;
    OnePlain(w');
    assert [w, w'][1..] == [w'];
  }

  lemma {:induction false} TwoBits(a: bool, b: bool)
    ensures OrBits<seq<Entry>>(NO_BITS, [Bit(a), Bit(b)]) == [a, b, false, false, false, false, false, false]
  {
  }

  lemma {:induction false} BasicPublishBody(exchange: bytes, key: bytes, flags: seq<Laid>, bits: seq<bool>)
    requires |exchange| <= 0xFF && |key| <= 0xFF
    requires |flags| == 2 && (forall i | 0 <= i < 2 :: flags[i].Bit?) && bits == OrBits(NO_BITS, flags)
    ensures var args := [Short(0)] + ([ShortStr(exchange), ShortStr(key)] + (flags + []));
            && Typed(BASIC_PUBLISH, args) && FitsArgs(args)
            && EncodeSets(BASIC_PUBLISH, args, NO_BITS)
               == BigEndian(0, 2) + (Shortstr(exchange) + Shortstr(key) + [PackBits(bits)])
  {
    var sets := BASIC_PUBLISH;
    assert sets[2..][1..] == [] && sets[1..][1..] == sets[2..];
    OneBitRun(sets[2..], flags, [], bits);
    assert [PackBits(bits)] + [] == [PackBits(bits)];
    TwoFields(sets[1..], ShortStr(exchange), ShortStr(key), flags + [], NO_BITS);
    OneField(sets, Short(0), [ShortStr(exchange), ShortStr(key)] + (flags + []), NO_BITS);
  }

  function Publish<T>(exchange: bytes, key: bytes, mandatory: bool, immediate: bool): Method<T> {
    Method(60, 40, [Short(0), ShortStr(exchange), ShortStr(key), Bit(mandatory), Bit(immediate)])
  }

  lemma {:induction false} PublishArgs(exchange: bytes, key: bytes, mandatory: bool, immediate: bool)
    ensures [Short(0)] + ([ShortStr(exchange), ShortStr(key)] + ([Bit(mandatory), Bit(immediate)] + []))
            == Publish<seq<Entry>>(exchange, key, mandatory, immediate).args
  {
  }

  /** basicPublish.write: two reserved octets, exchange, routing key, and one octet of two flags. */
  lemma {:induction false} BasicPublishOctets(exchange: bytes, key: bytes, mandatory: bool, immediate: bool)
    requires |exchange| <= 0xFF && |key| <= 0xFF
    ensures var m := Publish(exchange, key, mandatory, immediate);
            && FitsMethod(Amqp091, m)
            && EncodeMethod(Amqp091, m)
               == BigEndian(60, 2) + BigEndian(40, 2)
                  + (BigEndian(0, 2) + (Shortstr(exchange) + Shortstr(key) + [Flag(mandatory, 1) + Flag(immediate, 2)]))
  {
    BasicPublishSets();
    assert Amqp091(60, 40) == Some(Sig([ShortK, ShortstrK, ShortstrK], 2, []));
    var flags: seq<Laid> := [Bit(mandatory), Bit(immediate)];
    TwoBits(mandatory, immediate);
    PackedFlags(mandatory, immediate, false, false, false);
    BasicPublishBody(exchange, key, flags, [mandatory, immediate, false, false, false, false, false, false]);
    PublishArgs(exchange, key, mandatory, immediate);
  }
}
