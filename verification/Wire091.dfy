/** Every method of AMQP 0-9-1 on the wire, octet by octet, as spec091.go writes and reads it. */
module Wire091 {
  import opened Bytes
  import opened Primitives
  import opened Octets
  import opened Fields
  import opened Fieldsets
  import opened Methods
  import opened MethodFrames
  import opened MethodLayouts
  import opened Options
  import opened Spec091
  import FL = FieldLayouts

  lemma {:induction false} ConnectionStartPut(versionMajor: byte, versionMinor: byte,
      serverProperties: seq<Entry>, mechanisms: bytes, locales: bytes)
    requires SupportedEntries(serverProperties) && FitsTable(serverProperties) && |mechanisms| <= MAX_INT32
        && |locales| <= MAX_INT32
    ensures Plain([Octet(versionMajor), Octet(versionMinor), TableArg(serverProperties), LongStr(mechanisms),
        LongStr(locales)])
    ensures Put(PutFlags(Put(Ids(10, 10), [Octet(versionMajor), Octet(versionMinor),
        TableArg(serverProperties), LongStr(mechanisms), LongStr(locales)]), []), [])
            == [0, 10, 0, 10] + [versionMajor] + [versionMinor] + FL.TableOctets(serverProperties)
                + Str32(mechanisms) + Str32(locales)
  {
    assert Ids(10, 10) == [0, 10, 0, 10];
    Put5([0, 10, 0, 10], Octet(versionMajor), Octet(versionMinor), TableArg(serverProperties),
        LongStr(mechanisms), LongStr(locales));
  }

  /** connection.start */
  lemma {:induction false} ConnectionStart(versionMajor: byte, versionMinor: byte,
      serverProperties: seq<Entry>, mechanisms: bytes, locales: bytes)
    requires SupportedEntries(serverProperties) && FitsTable(serverProperties) && |mechanisms| <= MAX_INT32
        && |locales| <= MAX_INT32
    ensures ValidSpec(Amqp091)
    ensures Wire(Amqp091, 10, 10, [Octet(versionMajor), Octet(versionMinor), TableArg(serverProperties),
        LongStr(mechanisms), LongStr(locales)], [], [],
              [0, 10, 0, 10] + [versionMajor] + [versionMinor] + FL.TableOctets(serverProperties)
                  + Str32(mechanisms) + Str32(locales))
  {
    Amqp091Valid();
    ConnectionStartPut(versionMajor, versionMinor, serverProperties, mechanisms, locales);
    Kinds5(Octet(versionMajor), Octet(versionMinor), TableArg(serverProperties), LongStr(mechanisms),
        LongStr(locales));
    Layout(Amqp091, 10, 10, Sig([OctetK, OctetK, TableK, LongstrK, LongstrK], 0, []), [Octet(versionMajor),
        Octet(versionMinor), TableArg(serverProperties), LongStr(mechanisms), LongStr(locales)], [], []);
  }

  lemma {:induction false} ConnectionStartOkPut(clientProperties: seq<Entry>, mechanism: bytes,
      response: bytes, locale: bytes)
    requires SupportedEntries(clientProperties) && FitsTable(clientProperties) && |mechanism| <= 0xFF
        && |response| <= MAX_INT32 && |locale| <= 0xFF
    ensures Plain([TableArg(clientProperties), ShortStr(mechanism), LongStr(response), ShortStr(locale)])
    ensures Put(PutFlags(Put(Ids(10, 11), [TableArg(clientProperties), ShortStr(mechanism), LongStr(response),
        ShortStr(locale)]), []), [])
            == [0, 10, 0, 11] + FL.TableOctets(clientProperties) + Str8(mechanism) + Str32(response) + Str8(locale)
  {
    assert Ids(10, 11) == [0, 10, 0, 11];
    Put4([0, 10, 0, 11], TableArg(clientProperties), ShortStr(mechanism), LongStr(response), ShortStr(locale));
  }

  /** connection.start-ok */
  lemma {:induction false} ConnectionStartOk(clientProperties: seq<Entry>, mechanism: bytes, response: bytes,
      locale: bytes)
    requires SupportedEntries(clientProperties) && FitsTable(clientProperties) && |mechanism| <= 0xFF
        && |response| <= MAX_INT32 && |locale| <= 0xFF
    ensures ValidSpec(Amqp091)
    ensures Wire(Amqp091, 10, 11, [TableArg(clientProperties), ShortStr(mechanism), LongStr(response),
        ShortStr(locale)], [], [],
              [0, 10, 0, 11] + FL.TableOctets(clientProperties) + Str8(mechanism) + Str32(response) + Str8(locale))
  {
    Amqp091Valid();
    ConnectionStartOkPut(clientProperties, mechanism, response, locale);
    Kinds4(TableArg(clientProperties), ShortStr(mechanism), LongStr(response), ShortStr(locale));
    Layout(Amqp091, 10, 11, Sig([TableK, ShortstrK, LongstrK, ShortstrK], 0, []), [TableArg(clientProperties),
        ShortStr(mechanism), LongStr(response), ShortStr(locale)], [], []);
  }

  /** connection.secure */
  lemma {:induction false} ConnectionSecure(challenge: bytes)
    requires |challenge| <= MAX_INT32
    ensures ValidSpec(Amqp091)
    ensures Wire(Amqp091, 10, 20, [LongStr(challenge)], [], [],
              [0, 10, 0, 20] + Str32(challenge))
  {
    Amqp091Valid();
    assert Ids(10, 20) == [0, 10, 0, 20];
    Put1([0, 10, 0, 20], LongStr(challenge));
    Kinds1(LongStr(challenge));
    Layout(Amqp091, 10, 20, Sig([LongstrK], 0, []), [LongStr(challenge)], [], []);
  }

  /** connection.secure-ok */
  lemma {:induction false} ConnectionSecureOk(response: bytes)
    requires |response| <= MAX_INT32
    ensures ValidSpec(Amqp091)
    ensures Wire(Amqp091, 10, 21, [LongStr(response)], [], [],
              [0, 10, 0, 21] + Str32(response))
  {
    Amqp091Valid();
    assert Ids(10, 21) == [0, 10, 0, 21];
    Put1([0, 10, 0, 21], LongStr(response));
    Kinds1(LongStr(response));
    Layout(Amqp091, 10, 21, Sig([LongstrK], 0, []), [LongStr(response)], [], []);
  }

  lemma {:induction false} ConnectionTunePut(channelMax: uint16, frameMax: uint32, heartbeat: uint16)
    ensures Plain([Short(channelMax), Long(frameMax), Short(heartbeat)])
    ensures Put(PutFlags(Put(Ids(10, 30), [Short(channelMax), Long(frameMax), Short(heartbeat)]), []), [])
            == [0, 10, 0, 30] + U16(channelMax) + U32(frameMax) + U16(heartbeat)
  {
    assert Ids(10, 30) == [0, 10, 0, 30];
    Put3([0, 10, 0, 30], Short(channelMax), Long(frameMax), Short(heartbeat));
  }

  /** connection.tune */
  lemma {:induction false} ConnectionTune(channelMax: uint16, frameMax: uint32, heartbeat: uint16)
    ensures ValidSpec(Amqp091)
    ensures Wire(Amqp091, 10, 30, [Short(channelMax), Long(frameMax), Short(heartbeat)], [], [],
              [0, 10, 0, 30] + U16(channelMax) + U32(frameMax) + U16(heartbeat))
  {
    Amqp091Valid();
    ConnectionTunePut(channelMax, frameMax, heartbeat);
    Kinds3(Short(channelMax), Long(frameMax), Short(heartbeat));
    Layout(Amqp091, 10, 30, Sig([ShortK, LongK, ShortK], 0, []), [Short(channelMax), Long(frameMax),
        Short(heartbeat)], [], []);
  }

  lemma {:induction false} ConnectionTuneOkPut(channelMax: uint16, frameMax: uint32, heartbeat: uint16)
    ensures Plain([Short(channelMax), Long(frameMax), Short(heartbeat)])
    ensures Put(PutFlags(Put(Ids(10, 31), [Short(channelMax), Long(frameMax), Short(heartbeat)]), []), [])
            == [0, 10, 0, 31] + U16(channelMax) + U32(frameMax) + U16(heartbeat)
  {
    assert Ids(10, 31) == [0, 10, 0, 31];
    Put3([0, 10, 0, 31], Short(channelMax), Long(frameMax), Short(heartbeat));
  }

  /** connection.tune-ok */
  lemma {:induction false} ConnectionTuneOk(channelMax: uint16, frameMax: uint32, heartbeat: uint16)
    ensures ValidSpec(Amqp091)
    ensures Wire(Amqp091, 10, 31, [Short(channelMax), Long(frameMax), Short(heartbeat)], [], [],
              [0, 10, 0, 31] + U16(channelMax) + U32(frameMax) + U16(heartbeat))
  {
    Amqp091Valid();
    ConnectionTuneOkPut(channelMax, frameMax, heartbeat);
    Kinds3(Short(channelMax), Long(frameMax), Short(heartbeat));
    Layout(Amqp091, 10, 31, Sig([ShortK, LongK, ShortK], 0, []), [Short(channelMax), Long(frameMax),
        Short(heartbeat)], [], []);
  }

  lemma {:induction false} ConnectionOpenPut(virtualHost: bytes, reserved1: bytes, reserved2: bool)
    requires |virtualHost| <= 0xFF && |reserved1| <= 0xFF
    ensures Plain([ShortStr(virtualHost), ShortStr(reserved1)])
    ensures Put(PutFlags(Put(Ids(10, 40), [ShortStr(virtualHost), ShortStr(reserved1)]), [reserved2]), [])
            == [0, 10, 0, 40] + Str8(virtualHost) + Str8(reserved1) + [Flag(reserved2, 1)]
  {
    assert Ids(10, 40) == [0, 10, 0, 40];
    Put2([0, 10, 0, 40], ShortStr(virtualHost), ShortStr(reserved1));
    PutFlags1(Put([0, 10, 0, 40], [ShortStr(virtualHost), ShortStr(reserved1)]), reserved2);
  }

  /** connection.open */
  lemma {:induction false} ConnectionOpen(virtualHost: bytes, reserved1: bytes, reserved2: bool)
    requires |virtualHost| <= 0xFF && |reserved1| <= 0xFF
    ensures ValidSpec(Amqp091)
    ensures Wire(Amqp091, 10, 40, [ShortStr(virtualHost), ShortStr(reserved1)], [reserved2], [],
              [0, 10, 0, 40] + Str8(virtualHost) + Str8(reserved1) + [Flag(reserved2, 1)])
  {
    Amqp091Valid();
    ConnectionOpenPut(virtualHost, reserved1, reserved2);
    Kinds2(ShortStr(virtualHost), ShortStr(reserved1));
    Layout(Amqp091, 10, 40, Sig([ShortstrK, ShortstrK], 1, []), [ShortStr(virtualHost), ShortStr(reserved1)],
        [reserved2], []);
  }

  /** connection.open-ok */
  lemma {:induction false} ConnectionOpenOk(reserved1: bytes)
    requires |reserved1| <= 0xFF
    ensures ValidSpec(Amqp091)
    ensures Wire(Amqp091, 10, 41, [ShortStr(reserved1)], [], [],
              [0, 10, 0, 41] + Str8(reserved1))
  {
    Amqp091Valid();
    assert Ids(10, 41) == [0, 10, 0, 41];
    Put1([0, 10, 0, 41], ShortStr(reserved1));
    Kinds1(ShortStr(reserved1));
    Layout(Amqp091, 10, 41, Sig([ShortstrK], 0, []), [ShortStr(reserved1)], [], []);
  }

  lemma {:induction false} ConnectionClosePut(replyCode: uint16, replyText: bytes, classId: uint16, methodId: uint16)
    requires |replyText| <= 0xFF
    ensures Plain([Short(replyCode), ShortStr(replyText), Short(classId), Short(methodId)])
    ensures Put(PutFlags(Put(Ids(10, 50), [Short(replyCode), ShortStr(replyText), Short(classId),
        Short(methodId)]), []), [])
            == [0, 10, 0, 50] + U16(replyCode) + Str8(replyText) + U16(classId) + U16(methodId)
  {
    assert Ids(10, 50) == [0, 10, 0, 50];
    Put4([0, 10, 0, 50], Short(replyCode), ShortStr(replyText), Short(classId), Short(methodId));
  }

  /** connection.close */
  lemma {:induction false} ConnectionClose(replyCode: uint16, replyText: bytes, classId: uint16, methodId: uint16)
    requires |replyText| <= 0xFF
    ensures ValidSpec(Amqp091)
    ensures Wire(Amqp091, 10, 50, [Short(replyCode), ShortStr(replyText), Short(classId), Short(methodId)], [], [],
              [0, 10, 0, 50] + U16(replyCode) + Str8(replyText) + U16(classId) + U16(methodId))
  {
    Amqp091Valid();
    ConnectionClosePut(replyCode, replyText, classId, methodId);
    Kinds4(Short(replyCode), ShortStr(replyText), Short(classId), Short(methodId));
    Layout(Amqp091, 10, 50, Sig([ShortK, ShortstrK, ShortK, ShortK], 0, []), [Short(replyCode),
        ShortStr(replyText), Short(classId), Short(methodId)], [], []);
  }

  /** connection.blocked */
  lemma {:induction false} ConnectionBlocked(reason: bytes)
    requires |reason| <= 0xFF
    ensures ValidSpec(Amqp091)
    ensures Wire(Amqp091, 10, 60, [ShortStr(reason)], [], [],
              [0, 10, 0, 60] + Str8(reason))
  {
    Amqp091Valid();
    assert Ids(10, 60) == [0, 10, 0, 60];
    Put1([0, 10, 0, 60], ShortStr(reason));
    Kinds1(ShortStr(reason));
    Layout(Amqp091, 10, 60, Sig([ShortstrK], 0, []), [ShortStr(reason)], [], []);
  }

  /** connection.update-secret */
  lemma {:induction false} ConnectionUpdateSecret(newSecret: bytes, reason: bytes)
    requires |newSecret| <= MAX_INT32 && |reason| <= 0xFF
    ensures ValidSpec(Amqp091)
    ensures Wire(Amqp091, 10, 70, [LongStr(newSecret), ShortStr(reason)], [], [],
              [0, 10, 0, 70] + Str32(newSecret) + Str8(reason))
  {
    Amqp091Valid();
    assert Ids(10, 70) == [0, 10, 0, 70];
    Put2([0, 10, 0, 70], LongStr(newSecret), ShortStr(reason));
    Kinds2(LongStr(newSecret), ShortStr(reason));
    Layout(Amqp091, 10, 70, Sig([LongstrK, ShortstrK], 0, []), [LongStr(newSecret), ShortStr(reason)], [], []);
  }

  /** channel.open */
  lemma {:induction false} ChannelOpen(reserved1: bytes)
    requires |reserved1| <= 0xFF
    ensures ValidSpec(Amqp091)
    ensures Wire(Amqp091, 20, 10, [ShortStr(reserved1)], [], [],
              [0, 20, 0, 10] + Str8(reserved1))
  {
    Amqp091Valid();
    assert Ids(20, 10) == [0, 20, 0, 10];
    Put1([0, 20, 0, 10], ShortStr(reserved1));
    Kinds1(ShortStr(reserved1));
    Layout(Amqp091, 20, 10, Sig([ShortstrK], 0, []), [ShortStr(reserved1)], [], []);
  }

  /** channel.open-ok */
  lemma {:induction false} ChannelOpenOk(reserved1: bytes)
    requires |reserved1| <= MAX_INT32
    ensures ValidSpec(Amqp091)
    ensures Wire(Amqp091, 20, 11, [LongStr(reserved1)], [], [],
              [0, 20, 0, 11] + Str32(reserved1))
  {
    Amqp091Valid();
    assert Ids(20, 11) == [0, 20, 0, 11];
    Put1([0, 20, 0, 11], LongStr(reserved1));
    Kinds1(LongStr(reserved1));
    Layout(Amqp091, 20, 11, Sig([LongstrK], 0, []), [LongStr(reserved1)], [], []);
  }

  /** channel.flow */
  lemma {:induction false} ChannelFlow(active: bool)
    ensures ValidSpec(Amqp091)
    ensures Wire(Amqp091, 20, 20, [], [active], [],
              [0, 20, 0, 20] + [Flag(active, 1)])
  {
    Amqp091Valid();
    assert Ids(20, 20) == [0, 20, 0, 20];
    PutFlags1(Put([0, 20, 0, 20], []), active);
    Layout(Amqp091, 20, 20, Sig([], 1, []), [], [active], []);
  }

  /** channel.flow-ok */
  lemma {:induction false} ChannelFlowOk(active: bool)
    ensures ValidSpec(Amqp091)
    ensures Wire(Amqp091, 20, 21, [], [active], [],
              [0, 20, 0, 21] + [Flag(active, 1)])
  {
    Amqp091Valid();
    assert Ids(20, 21) == [0, 20, 0, 21];
    PutFlags1(Put([0, 20, 0, 21], []), active);
    Layout(Amqp091, 20, 21, Sig([], 1, []), [], [active], []);
  }

  lemma {:induction false} ChannelClosePut(replyCode: uint16, replyText: bytes, classId: uint16, methodId: uint16)
    requires |replyText| <= 0xFF
    ensures Plain([Short(replyCode), ShortStr(replyText), Short(classId), Short(methodId)])
    ensures Put(PutFlags(Put(Ids(20, 40), [Short(replyCode), ShortStr(replyText), Short(classId),
        Short(methodId)]), []), [])
            == [0, 20, 0, 40] + U16(replyCode) + Str8(replyText) + U16(classId) + U16(methodId)
  {
    assert Ids(20, 40) == [0, 20, 0, 40];
    Put4([0, 20, 0, 40], Short(replyCode), ShortStr(replyText), Short(classId), Short(methodId));
  }

  /** channel.close */
  lemma {:induction false} ChannelClose(replyCode: uint16, replyText: bytes, classId: uint16, methodId: uint16)
    requires |replyText| <= 0xFF
    ensures ValidSpec(Amqp091)
    ensures Wire(Amqp091, 20, 40, [Short(replyCode), ShortStr(replyText), Short(classId), Short(methodId)], [], [],
              [0, 20, 0, 40] + U16(replyCode) + Str8(replyText) + U16(classId) + U16(methodId))
  {
    Amqp091Valid();
    ChannelClosePut(replyCode, replyText, classId, methodId);
    Kinds4(Short(replyCode), ShortStr(replyText), Short(classId), Short(methodId));
    Layout(Amqp091, 20, 40, Sig([ShortK, ShortstrK, ShortK, ShortK], 0, []), [Short(replyCode),
        ShortStr(replyText), Short(classId), Short(methodId)], [], []);
  }

  lemma {:induction false} ExchangeDeclarePut(reserved1: uint16, exchange: bytes, typ: bytes, passive: bool,
      durable: bool, autoDelete: bool, internal: bool, noWait: bool, arguments: seq<Entry>)
    requires |exchange| <= 0xFF && |typ| <= 0xFF && SupportedEntries(arguments) && FitsTable(arguments)
    ensures Plain([Short(reserved1), ShortStr(exchange), ShortStr(typ)]) && Plain([TableArg(arguments)])
    ensures Put(PutFlags(Put(Ids(40, 10), [Short(reserved1), ShortStr(exchange), ShortStr(typ)]), [passive,
        durable, autoDelete, internal, noWait]), [TableArg(arguments)])
            == [0, 40, 0, 10] + U16(reserved1) + Str8(exchange) + Str8(typ) + [Flag(passive, 1)
                + Flag(durable, 2) + Flag(autoDelete, 4) + Flag(internal, 8) + Flag(noWait, 16)]
                + FL.TableOctets(arguments)
  {
    assert Ids(40, 10) == [0, 40, 0, 10];
    Put3([0, 40, 0, 10], Short(reserved1), ShortStr(exchange), ShortStr(typ));
    PutFlags5(Put([0, 40, 0, 10], [Short(reserved1), ShortStr(exchange), ShortStr(typ)]), passive, durable,
        autoDelete, internal, noWait);
    Put1(PutFlags(Put([0, 40, 0, 10], [Short(reserved1), ShortStr(exchange), ShortStr(typ)]), [passive,
        durable, autoDelete, internal, noWait]), TableArg(arguments));
  }

  /** exchange.declare */
  lemma {:induction false} ExchangeDeclare(reserved1: uint16, exchange: bytes, typ: bytes, passive: bool,
      durable: bool, autoDelete: bool, internal: bool, noWait: bool, arguments: seq<Entry>)
    requires |exchange| <= 0xFF && |typ| <= 0xFF && SupportedEntries(arguments) && FitsTable(arguments)
    ensures ValidSpec(Amqp091)
    ensures Wire(Amqp091, 40, 10, [Short(reserved1), ShortStr(exchange), ShortStr(typ)], [passive, durable,
        autoDelete, internal, noWait], [TableArg(arguments)],
              [0, 40, 0, 10] + U16(reserved1) + Str8(exchange) + Str8(typ) + [Flag(passive, 1)
                  + Flag(durable, 2) + Flag(autoDelete, 4) + Flag(internal, 8) + Flag(noWait, 16)]
                  + FL.TableOctets(arguments))
  {
    Amqp091Valid();
    ExchangeDeclarePut(reserved1, exchange, typ, passive, durable, autoDelete, internal, noWait, arguments);
    Kinds3(Short(reserved1), ShortStr(exchange), ShortStr(typ));
    Kinds1(TableArg(arguments));
    Layout(Amqp091, 40, 10, Sig([ShortK, ShortstrK, ShortstrK], 5, [TableK]), [Short(reserved1),
        ShortStr(exchange), ShortStr(typ)], [passive, durable, autoDelete, internal, noWait],
        [TableArg(arguments)]);
  }

  lemma {:induction false} ExchangeDeletePut(reserved1: uint16, exchange: bytes, ifUnused: bool, noWait: bool)
    requires |exchange| <= 0xFF
    ensures Plain([Short(reserved1), ShortStr(exchange)])
    ensures Put(PutFlags(Put(Ids(40, 20), [Short(reserved1), ShortStr(exchange)]), [ifUnused, noWait]), [])
            == [0, 40, 0, 20] + U16(reserved1) + Str8(exchange) + [Flag(ifUnused, 1) + Flag(noWait, 2)]
  {
    assert Ids(40, 20) == [0, 40, 0, 20];
    Put2([0, 40, 0, 20], Short(reserved1), ShortStr(exchange));
    PutFlags2(Put([0, 40, 0, 20], [Short(reserved1), ShortStr(exchange)]), ifUnused, noWait);
  }

  /** exchange.delete */
  lemma {:induction false} ExchangeDelete(reserved1: uint16, exchange: bytes, ifUnused: bool, noWait: bool)
    requires |exchange| <= 0xFF
    ensures ValidSpec(Amqp091)
    ensures Wire(Amqp091, 40, 20, [Short(reserved1), ShortStr(exchange)], [ifUnused, noWait], [],
              [0, 40, 0, 20] + U16(reserved1) + Str8(exchange) + [Flag(ifUnused, 1) + Flag(noWait, 2)])
  {
    Amqp091Valid();
    ExchangeDeletePut(reserved1, exchange, ifUnused, noWait);
    Kinds2(Short(reserved1), ShortStr(exchange));
    Layout(Amqp091, 40, 20, Sig([ShortK, ShortstrK], 2, []), [Short(reserved1), ShortStr(exchange)], [ifUnused,
        noWait], []);
  }

  lemma {:induction false} ExchangeBindPut(reserved1: uint16, destination: bytes, source: bytes,
      routingKey: bytes, noWait: bool, arguments: seq<Entry>)
    requires |destination| <= 0xFF && |source| <= 0xFF && |routingKey| <= 0xFF && SupportedEntries(arguments)
        && FitsTable(arguments)
    ensures Plain([Short(reserved1), ShortStr(destination), ShortStr(source), ShortStr(routingKey)])
        && Plain([TableArg(arguments)])
    ensures Put(PutFlags(Put(Ids(40, 30), [Short(reserved1), ShortStr(destination), ShortStr(source),
        ShortStr(routingKey)]), [noWait]), [TableArg(arguments)])
            == [0, 40, 0, 30] + U16(reserved1) + Str8(destination) + Str8(source) + Str8(routingKey)
                + [Flag(noWait, 1)] + FL.TableOctets(arguments)
  {
    assert Ids(40, 30) == [0, 40, 0, 30];
    Put4([0, 40, 0, 30], Short(reserved1), ShortStr(destination), ShortStr(source), ShortStr(routingKey));
    PutFlags1(Put([0, 40, 0, 30], [Short(reserved1), ShortStr(destination), ShortStr(source),
        ShortStr(routingKey)]), noWait);
    Put1(PutFlags(Put([0, 40, 0, 30], [Short(reserved1), ShortStr(destination), ShortStr(source),
        ShortStr(routingKey)]), [noWait]), TableArg(arguments));
  }

  /** exchange.bind */
  lemma {:induction false} ExchangeBind(reserved1: uint16, destination: bytes, source: bytes,
      routingKey: bytes, noWait: bool, arguments: seq<Entry>)
    requires |destination| <= 0xFF && |source| <= 0xFF && |routingKey| <= 0xFF && SupportedEntries(arguments)
        && FitsTable(arguments)
    ensures ValidSpec(Amqp091)
    ensures Wire(Amqp091, 40, 30, [Short(reserved1), ShortStr(destination), ShortStr(source),
        ShortStr(routingKey)], [noWait], [TableArg(arguments)],
              [0, 40, 0, 30] + U16(reserved1) + Str8(destination) + Str8(source) + Str8(routingKey)
                  + [Flag(noWait, 1)] + FL.TableOctets(arguments))
  {
    Amqp091Valid();
    ExchangeBindPut(reserved1, destination, source, routingKey, noWait, arguments);
    Kinds4(Short(reserved1), ShortStr(destination), ShortStr(source), ShortStr(routingKey));
    Kinds1(TableArg(arguments));
    Layout(Amqp091, 40, 30, Sig([ShortK, ShortstrK, ShortstrK, ShortstrK], 1, [TableK]), [Short(reserved1),
        ShortStr(destination), ShortStr(source), ShortStr(routingKey)], [noWait], [TableArg(arguments)]);
  }

  lemma {:induction false} ExchangeUnbindPut(reserved1: uint16, destination: bytes, source: bytes,
      routingKey: bytes, noWait: bool, arguments: seq<Entry>)
    requires |destination| <= 0xFF && |source| <= 0xFF && |routingKey| <= 0xFF && SupportedEntries(arguments)
        && FitsTable(arguments)
    ensures Plain([Short(reserved1), ShortStr(destination), ShortStr(source), ShortStr(routingKey)])
        && Plain([TableArg(arguments)])
    ensures Put(PutFlags(Put(Ids(40, 40), [Short(reserved1), ShortStr(destination), ShortStr(source),
        ShortStr(routingKey)]), [noWait]), [TableArg(arguments)])
            == [0, 40, 0, 40] + U16(reserved1) + Str8(destination) + Str8(source) + Str8(routingKey)
                + [Flag(noWait, 1)] + FL.TableOctets(arguments)
  {
    assert Ids(40, 40) == [0, 40, 0, 40];
    Put4([0, 40, 0, 40], Short(reserved1), ShortStr(destination), ShortStr(source), ShortStr(routingKey));
    PutFlags1(Put([0, 40, 0, 40], [Short(reserved1), ShortStr(destination), ShortStr(source),
        ShortStr(routingKey)]), noWait);
    Put1(PutFlags(Put([0, 40, 0, 40], [Short(reserved1), ShortStr(destination), ShortStr(source),
        ShortStr(routingKey)]), [noWait]), TableArg(arguments));
  }

  /** exchange.unbind */
  lemma {:induction false} ExchangeUnbind(reserved1: uint16, destination: bytes, source: bytes,
      routingKey: bytes, noWait: bool, arguments: seq<Entry>)
    requires |destination| <= 0xFF && |source| <= 0xFF && |routingKey| <= 0xFF && SupportedEntries(arguments)
        && FitsTable(arguments)
    ensures ValidSpec(Amqp091)
    ensures Wire(Amqp091, 40, 40, [Short(reserved1), ShortStr(destination), ShortStr(source),
        ShortStr(routingKey)], [noWait], [TableArg(arguments)],
              [0, 40, 0, 40] + U16(reserved1) + Str8(destination) + Str8(source) + Str8(routingKey)
                  + [Flag(noWait, 1)] + FL.TableOctets(arguments))
  {
    Amqp091Valid();
    ExchangeUnbindPut(reserved1, destination, source, routingKey, noWait, arguments);
    Kinds4(Short(reserved1), ShortStr(destination), ShortStr(source), ShortStr(routingKey));
    Kinds1(TableArg(arguments));
    Layout(Amqp091, 40, 40, Sig([ShortK, ShortstrK, ShortstrK, ShortstrK], 1, [TableK]), [Short(reserved1),
        ShortStr(destination), ShortStr(source), ShortStr(routingKey)], [noWait], [TableArg(arguments)]);
  }

  lemma {:induction false} QueueDeclarePut(reserved1: uint16, queue: bytes, passive: bool, durable: bool,
      exclusive: bool, autoDelete: bool, noWait: bool, arguments: seq<Entry>)
    requires |queue| <= 0xFF && SupportedEntries(arguments) && FitsTable(arguments)
    ensures Plain([Short(reserved1), ShortStr(queue)]) && Plain([TableArg(arguments)])
    ensures Put(PutFlags(Put(Ids(50, 10), [Short(reserved1), ShortStr(queue)]), [passive, durable, exclusive,
        autoDelete, noWait]), [TableArg(arguments)])
            == [0, 50, 0, 10] + U16(reserved1) + Str8(queue) + [Flag(passive, 1) + Flag(durable, 2)
                + Flag(exclusive, 4) + Flag(autoDelete, 8) + Flag(noWait, 16)] + FL.TableOctets(arguments)
  {
    assert Ids(50, 10) == [0, 50, 0, 10];
    Put2([0, 50, 0, 10], Short(reserved1), ShortStr(queue));
    PutFlags5(Put([0, 50, 0, 10], [Short(reserved1), ShortStr(queue)]), passive, durable, exclusive,
        autoDelete, noWait);
    Put1(PutFlags(Put([0, 50, 0, 10], [Short(reserved1), ShortStr(queue)]), [passive, durable, exclusive,
        autoDelete, noWait]), TableArg(arguments));
  }

  /** queue.declare */
  lemma {:induction false} QueueDeclare(reserved1: uint16, queue: bytes, passive: bool, durable: bool,
      exclusive: bool, autoDelete: bool, noWait: bool, arguments: seq<Entry>)
    requires |queue| <= 0xFF && SupportedEntries(arguments) && FitsTable(arguments)
    ensures ValidSpec(Amqp091)
    ensures Wire(Amqp091, 50, 10, [Short(reserved1), ShortStr(queue)], [passive, durable, exclusive,
        autoDelete, noWait], [TableArg(arguments)],
              [0, 50, 0, 10] + U16(reserved1) + Str8(queue) + [Flag(passive, 1) + Flag(durable, 2)
                  + Flag(exclusive, 4) + Flag(autoDelete, 8) + Flag(noWait, 16)] + FL.TableOctets(arguments))
  {
    Amqp091Valid();
    QueueDeclarePut(reserved1, queue, passive, durable, exclusive, autoDelete, noWait, arguments);
    Kinds2(Short(reserved1), ShortStr(queue));
    Kinds1(TableArg(arguments));
    Layout(Amqp091, 50, 10, Sig([ShortK, ShortstrK], 5, [TableK]), [Short(reserved1), ShortStr(queue)],
        [passive, durable, exclusive, autoDelete, noWait], [TableArg(arguments)]);
  }

  lemma {:induction false} QueueDeclareOkPut(queue: bytes, messageCount: uint32, consumerCount: uint32)
    requires |queue| <= 0xFF
    ensures Plain([ShortStr(queue), Long(messageCount), Long(consumerCount)])
    ensures Put(PutFlags(Put(Ids(50, 11), [ShortStr(queue), Long(messageCount), Long(consumerCount)]), []), [])
            == [0, 50, 0, 11] + Str8(queue) + U32(messageCount) + U32(consumerCount)
  {
    assert Ids(50, 11) == [0, 50, 0, 11];
    Put3([0, 50, 0, 11], ShortStr(queue), Long(messageCount), Long(consumerCount));
  }

  /** queue.declare-ok */
  lemma {:induction false} QueueDeclareOk(queue: bytes, messageCount: uint32, consumerCount: uint32)
    requires |queue| <= 0xFF
    ensures ValidSpec(Amqp091)
    ensures Wire(Amqp091, 50, 11, [ShortStr(queue), Long(messageCount), Long(consumerCount)], [], [],
              [0, 50, 0, 11] + Str8(queue) + U32(messageCount) + U32(consumerCount))
  {
    Amqp091Valid();
    QueueDeclareOkPut(queue, messageCount, consumerCount);
    Kinds3(ShortStr(queue), Long(messageCount), Long(consumerCount));
    Layout(Amqp091, 50, 11, Sig([ShortstrK, LongK, LongK], 0, []), [ShortStr(queue), Long(messageCount),
        Long(consumerCount)], [], []);
  }

  lemma {:induction false} QueueBindPut(reserved1: uint16, queue: bytes, exchange: bytes, routingKey: bytes,
      noWait: bool, arguments: seq<Entry>)
    requires |queue| <= 0xFF && |exchange| <= 0xFF && |routingKey| <= 0xFF && SupportedEntries(arguments)
        && FitsTable(arguments)
    ensures Plain([Short(reserved1), ShortStr(queue), ShortStr(exchange), ShortStr(routingKey)])
        && Plain([TableArg(arguments)])
    ensures Put(PutFlags(Put(Ids(50, 20), [Short(reserved1), ShortStr(queue), ShortStr(exchange),
        ShortStr(routingKey)]), [noWait]), [TableArg(arguments)])
            == [0, 50, 0, 20] + U16(reserved1) + Str8(queue) + Str8(exchange) + Str8(routingKey)
                + [Flag(noWait, 1)] + FL.TableOctets(arguments)
  {
    assert Ids(50, 20) == [0, 50, 0, 20];
    Put4([0, 50, 0, 20], Short(reserved1), ShortStr(queue), ShortStr(exchange), ShortStr(routingKey));
    PutFlags1(Put([0, 50, 0, 20], [Short(reserved1), ShortStr(queue), ShortStr(exchange),
        ShortStr(routingKey)]), noWait);
    Put1(PutFlags(Put([0, 50, 0, 20], [Short(reserved1), ShortStr(queue), ShortStr(exchange),
        ShortStr(routingKey)]), [noWait]), TableArg(arguments));
  }

  /** queue.bind */
  lemma {:induction false} QueueBind(reserved1: uint16, queue: bytes, exchange: bytes, routingKey: bytes,
      noWait: bool, arguments: seq<Entry>)
    requires |queue| <= 0xFF && |exchange| <= 0xFF && |routingKey| <= 0xFF && SupportedEntries(arguments)
        && FitsTable(arguments)
    ensures ValidSpec(Amqp091)
    ensures Wire(Amqp091, 50, 20, [Short(reserved1), ShortStr(queue), ShortStr(exchange),
        ShortStr(routingKey)], [noWait], [TableArg(arguments)],
              [0, 50, 0, 20] + U16(reserved1) + Str8(queue) + Str8(exchange) + Str8(routingKey)
                  + [Flag(noWait, 1)] + FL.TableOctets(arguments))
  {
    Amqp091Valid();
    QueueBindPut(reserved1, queue, exchange, routingKey, noWait, arguments);
    Kinds4(Short(reserved1), ShortStr(queue), ShortStr(exchange), ShortStr(routingKey));
    Kinds1(TableArg(arguments));
    Layout(Amqp091, 50, 20, Sig([ShortK, ShortstrK, ShortstrK, ShortstrK], 1, [TableK]), [Short(reserved1),
        ShortStr(queue), ShortStr(exchange), ShortStr(routingKey)], [noWait], [TableArg(arguments)]);
  }

  lemma {:induction false} QueueUnbindPut(reserved1: uint16, queue: bytes, exchange: bytes, routingKey: bytes,
      arguments: seq<Entry>)
    requires |queue| <= 0xFF && |exchange| <= 0xFF && |routingKey| <= 0xFF && SupportedEntries(arguments)
        && FitsTable(arguments)
    ensures Plain([Short(reserved1), ShortStr(queue), ShortStr(exchange), ShortStr(routingKey), TableArg(arguments)])
    ensures Put(PutFlags(Put(Ids(50, 50), [Short(reserved1), ShortStr(queue), ShortStr(exchange),
        ShortStr(routingKey), TableArg(arguments)]), []), [])
            == [0, 50, 0, 50] + U16(reserved1) + Str8(queue) + Str8(exchange) + Str8(routingKey)
                + FL.TableOctets(arguments)
  {
    assert Ids(50, 50) == [0, 50, 0, 50];
    Put5([0, 50, 0, 50], Short(reserved1), ShortStr(queue), ShortStr(exchange), ShortStr(routingKey),
        TableArg(arguments));
  }

  /** queue.unbind */
  lemma {:induction false} QueueUnbind(reserved1: uint16, queue: bytes, exchange: bytes, routingKey: bytes,
      arguments: seq<Entry>)
    requires |queue| <= 0xFF && |exchange| <= 0xFF && |routingKey| <= 0xFF && SupportedEntries(arguments)
        && FitsTable(arguments)
    ensures ValidSpec(Amqp091)
    ensures Wire(Amqp091, 50, 50, [Short(reserved1), ShortStr(queue), ShortStr(exchange), ShortStr(routingKey),
        TableArg(arguments)], [], [],
              [0, 50, 0, 50] + U16(reserved1) + Str8(queue) + Str8(exchange) + Str8(routingKey)
                  + FL.TableOctets(arguments))
  {
    Amqp091Valid();
    QueueUnbindPut(reserved1, queue, exchange, routingKey, arguments);
    Kinds5(Short(reserved1), ShortStr(queue), ShortStr(exchange), ShortStr(routingKey), TableArg(arguments));
    Layout(Amqp091, 50, 50, Sig([ShortK, ShortstrK, ShortstrK, ShortstrK, TableK], 0, []), [Short(reserved1),
        ShortStr(queue), ShortStr(exchange), ShortStr(routingKey), TableArg(arguments)], [], []);
  }

  lemma {:induction false} QueuePurgePut(reserved1: uint16, queue: bytes, noWait: bool)
    requires |queue| <= 0xFF
    ensures Plain([Short(reserved1), ShortStr(queue)])
    ensures Put(PutFlags(Put(Ids(50, 30), [Short(reserved1), ShortStr(queue)]), [noWait]), [])
            == [0, 50, 0, 30] + U16(reserved1) + Str8(queue) + [Flag(noWait, 1)]
  {
    assert Ids(50, 30) == [0, 50, 0, 30];
    Put2([0, 50, 0, 30], Short(reserved1), ShortStr(queue));
    PutFlags1(Put([0, 50, 0, 30], [Short(reserved1), ShortStr(queue)]), noWait);
  }

  /** queue.purge */
  lemma {:induction false} QueuePurge(reserved1: uint16, queue: bytes, noWait: bool)
    requires |queue| <= 0xFF
    ensures ValidSpec(Amqp091)
    ensures Wire(Amqp091, 50, 30, [Short(reserved1), ShortStr(queue)], [noWait], [],
              [0, 50, 0, 30] + U16(reserved1) + Str8(queue) + [Flag(noWait, 1)])
  {
    Amqp091Valid();
    QueuePurgePut(reserved1, queue, noWait);
    Kinds2(Short(reserved1), ShortStr(queue));
    Layout(Amqp091, 50, 30, Sig([ShortK, ShortstrK], 1, []), [Short(reserved1), ShortStr(queue)], [noWait], []);
  }

  /** queue.purge-ok */
  lemma {:induction false} QueuePurgeOk(messageCount: uint32)
    ensures ValidSpec(Amqp091)
    ensures Wire(Amqp091, 50, 31, [Long(messageCount)], [], [],
              [0, 50, 0, 31] + U32(messageCount))
  {
    Amqp091Valid();
    assert Ids(50, 31) == [0, 50, 0, 31];
    Put1([0, 50, 0, 31], Long(messageCount));
    Kinds1(Long(messageCount));
    Layout(Amqp091, 50, 31, Sig([LongK], 0, []), [Long(messageCount)], [], []);
  }

  lemma {:induction false} QueueDeletePut(reserved1: uint16, queue: bytes, ifUnused: bool, ifEmpty: bool,
      noWait: bool)
    requires |queue| <= 0xFF
    ensures Plain([Short(reserved1), ShortStr(queue)])
    ensures Put(PutFlags(Put(Ids(50, 40), [Short(reserved1), ShortStr(queue)]), [ifUnused, ifEmpty, noWait]), [])
            == [0, 50, 0, 40] + U16(reserved1) + Str8(queue) + [Flag(ifUnused, 1) + Flag(ifEmpty, 2)
                + Flag(noWait, 4)]
  {
    assert Ids(50, 40) == [0, 50, 0, 40];
    Put2([0, 50, 0, 40], Short(reserved1), ShortStr(queue));
    PutFlags3(Put([0, 50, 0, 40], [Short(reserved1), ShortStr(queue)]), ifUnused, ifEmpty, noWait);
  }

  /** queue.delete */
  lemma {:induction false} QueueDelete(reserved1: uint16, queue: bytes, ifUnused: bool, ifEmpty: bool, noWait: bool)
    requires |queue| <= 0xFF
    ensures ValidSpec(Amqp091)
    ensures Wire(Amqp091, 50, 40, [Short(reserved1), ShortStr(queue)], [ifUnused, ifEmpty, noWait], [],
              [0, 50, 0, 40] + U16(reserved1) + Str8(queue) + [Flag(ifUnused, 1) + Flag(ifEmpty, 2)
                  + Flag(noWait, 4)])
  {
    Amqp091Valid();
    QueueDeletePut(reserved1, queue, ifUnused, ifEmpty, noWait);
    Kinds2(Short(reserved1), ShortStr(queue));
    Layout(Amqp091, 50, 40, Sig([ShortK, ShortstrK], 3, []), [Short(reserved1), ShortStr(queue)], [ifUnused,
        ifEmpty, noWait], []);
  }

  /** queue.delete-ok */
  lemma {:induction false} QueueDeleteOk(messageCount: uint32)
    ensures ValidSpec(Amqp091)
    ensures Wire(Amqp091, 50, 41, [Long(messageCount)], [], [],
              [0, 50, 0, 41] + U32(messageCount))
  {
    Amqp091Valid();
    assert Ids(50, 41) == [0, 50, 0, 41];
    Put1([0, 50, 0, 41], Long(messageCount));
    Kinds1(Long(messageCount));
    Layout(Amqp091, 50, 41, Sig([LongK], 0, []), [Long(messageCount)], [], []);
  }

  lemma {:induction false} BasicQosPut(prefetchSize: uint32, prefetchCount: uint16, global: bool)
    ensures Plain([Long(prefetchSize), Short(prefetchCount)])
    ensures Put(PutFlags(Put(Ids(60, 10), [Long(prefetchSize), Short(prefetchCount)]), [global]), [])
            == [0, 60, 0, 10] + U32(prefetchSize) + U16(prefetchCount) + [Flag(global, 1)]
  {
    assert Ids(60, 10) == [0, 60, 0, 10];
    Put2([0, 60, 0, 10], Long(prefetchSize), Short(prefetchCount));
    PutFlags1(Put([0, 60, 0, 10], [Long(prefetchSize), Short(prefetchCount)]), global);
  }

  /** basic.qos */
  lemma {:induction false} BasicQos(prefetchSize: uint32, prefetchCount: uint16, global: bool)
    ensures ValidSpec(Amqp091)
    ensures Wire(Amqp091, 60, 10, [Long(prefetchSize), Short(prefetchCount)], [global], [],
              [0, 60, 0, 10] + U32(prefetchSize) + U16(prefetchCount) + [Flag(global, 1)])
  {
    Amqp091Valid();
    BasicQosPut(prefetchSize, prefetchCount, global);
    Kinds2(Long(prefetchSize), Short(prefetchCount));
    Layout(Amqp091, 60, 10, Sig([LongK, ShortK], 1, []), [Long(prefetchSize), Short(prefetchCount)], [global], []);
  }

  lemma {:induction false} BasicConsumePut(reserved1: uint16, queue: bytes, consumerTag: bytes, noLocal: bool,
      noAck: bool, exclusive: bool, noWait: bool, arguments: seq<Entry>)
    requires |queue| <= 0xFF && |consumerTag| <= 0xFF && SupportedEntries(arguments) && FitsTable(arguments)
    ensures Plain([Short(reserved1), ShortStr(queue), ShortStr(consumerTag)]) && Plain([TableArg(arguments)])
    ensures Put(PutFlags(Put(Ids(60, 20), [Short(reserved1), ShortStr(queue), ShortStr(consumerTag)]),
        [noLocal, noAck, exclusive, noWait]), [TableArg(arguments)])
            == [0, 60, 0, 20] + U16(reserved1) + Str8(queue) + Str8(consumerTag) + [Flag(noLocal, 1)
                + Flag(noAck, 2) + Flag(exclusive, 4) + Flag(noWait, 8)] + FL.TableOctets(arguments)
  {
    assert Ids(60, 20) == [0, 60, 0, 20];
    Put3([0, 60, 0, 20], Short(reserved1), ShortStr(queue), ShortStr(consumerTag));
    PutFlags4(Put([0, 60, 0, 20], [Short(reserved1), ShortStr(queue), ShortStr(consumerTag)]), noLocal, noAck,
        exclusive, noWait);
    Put1(PutFlags(Put([0, 60, 0, 20], [Short(reserved1), ShortStr(queue), ShortStr(consumerTag)]), [noLocal,
        noAck, exclusive, noWait]), TableArg(arguments));
  }

  /** basic.consume */
  lemma {:induction false} BasicConsume(reserved1: uint16, queue: bytes, consumerTag: bytes, noLocal: bool,
      noAck: bool, exclusive: bool, noWait: bool, arguments: seq<Entry>)
    requires |queue| <= 0xFF && |consumerTag| <= 0xFF && SupportedEntries(arguments) && FitsTable(arguments)
    ensures ValidSpec(Amqp091)
    ensures Wire(Amqp091, 60, 20, [Short(reserved1), ShortStr(queue), ShortStr(consumerTag)], [noLocal, noAck,
        exclusive, noWait], [TableArg(arguments)],
              [0, 60, 0, 20] + U16(reserved1) + Str8(queue) + Str8(consumerTag) + [Flag(noLocal, 1)
                  + Flag(noAck, 2) + Flag(exclusive, 4) + Flag(noWait, 8)] + FL.TableOctets(arguments))
  {
    Amqp091Valid();
    BasicConsumePut(reserved1, queue, consumerTag, noLocal, noAck, exclusive, noWait, arguments);
    Kinds3(Short(reserved1), ShortStr(queue), ShortStr(consumerTag));
    Kinds1(TableArg(arguments));
    Layout(Amqp091, 60, 20, Sig([ShortK, ShortstrK, ShortstrK], 4, [TableK]), [Short(reserved1),
        ShortStr(queue), ShortStr(consumerTag)], [noLocal, noAck, exclusive, noWait], [TableArg(arguments)]);
  }

  /** basic.consume-ok */
  lemma {:induction false} BasicConsumeOk(consumerTag: bytes)
    requires |consumerTag| <= 0xFF
    ensures ValidSpec(Amqp091)
    ensures Wire(Amqp091, 60, 21, [ShortStr(consumerTag)], [], [],
              [0, 60, 0, 21] + Str8(consumerTag))
  {
    Amqp091Valid();
    assert Ids(60, 21) == [0, 60, 0, 21];
    Put1([0, 60, 0, 21], ShortStr(consumerTag));
    Kinds1(ShortStr(consumerTag));
    Layout(Amqp091, 60, 21, Sig([ShortstrK], 0, []), [ShortStr(consumerTag)], [], []);
  }

  /** basic.cancel */
  lemma {:induction false} BasicCancel(consumerTag: bytes, noWait: bool)
    requires |consumerTag| <= 0xFF
    ensures ValidSpec(Amqp091)
    ensures Wire(Amqp091, 60, 30, [ShortStr(consumerTag)], [noWait], [],
              [0, 60, 0, 30] + Str8(consumerTag) + [Flag(noWait, 1)])
  {
    Amqp091Valid();
    assert Ids(60, 30) == [0, 60, 0, 30];
    Put1([0, 60, 0, 30], ShortStr(consumerTag));
    PutFlags1(Put([0, 60, 0, 30], [ShortStr(consumerTag)]), noWait);
    Kinds1(ShortStr(consumerTag));
    Layout(Amqp091, 60, 30, Sig([ShortstrK], 1, []), [ShortStr(consumerTag)], [noWait], []);
  }

  /** basic.cancel-ok */
  lemma {:induction false} BasicCancelOk(consumerTag: bytes)
    requires |consumerTag| <= 0xFF
    ensures ValidSpec(Amqp091)
    ensures Wire(Amqp091, 60, 31, [ShortStr(consumerTag)], [], [],
              [0, 60, 0, 31] + Str8(consumerTag))
  {
    Amqp091Valid();
    assert Ids(60, 31) == [0, 60, 0, 31];
    Put1([0, 60, 0, 31], ShortStr(consumerTag));
    Kinds1(ShortStr(consumerTag));
    Layout(Amqp091, 60, 31, Sig([ShortstrK], 0, []), [ShortStr(consumerTag)], [], []);
  }

  lemma {:induction false} BasicPublishPut(reserved1: uint16, exchange: bytes, routingKey: bytes,
      mandatory: bool, immediate: bool)
    requires |exchange| <= 0xFF && |routingKey| <= 0xFF
    ensures Plain([Short(reserved1), ShortStr(exchange), ShortStr(routingKey)])
    ensures Put(PutFlags(Put(Ids(60, 40), [Short(reserved1), ShortStr(exchange), ShortStr(routingKey)]),
        [mandatory, immediate]), [])
            == [0, 60, 0, 40] + U16(reserved1) + Str8(exchange) + Str8(routingKey) + [Flag(mandatory, 1)
                + Flag(immediate, 2)]
  {
    assert Ids(60, 40) == [0, 60, 0, 40];
    Put3([0, 60, 0, 40], Short(reserved1), ShortStr(exchange), ShortStr(routingKey));
    PutFlags2(Put([0, 60, 0, 40], [Short(reserved1), ShortStr(exchange), ShortStr(routingKey)]), mandatory,
        immediate);
  }

  /** basic.publish */
  lemma {:induction false} BasicPublish(reserved1: uint16, exchange: bytes, routingKey: bytes, mandatory: bool,
      immediate: bool)
    requires |exchange| <= 0xFF && |routingKey| <= 0xFF
    ensures ValidSpec(Amqp091)
    ensures Wire(Amqp091, 60, 40, [Short(reserved1), ShortStr(exchange), ShortStr(routingKey)], [mandatory,
        immediate], [],
              [0, 60, 0, 40] + U16(reserved1) + Str8(exchange) + Str8(routingKey) + [Flag(mandatory, 1)
                  + Flag(immediate, 2)])
  {
    Amqp091Valid();
    BasicPublishPut(reserved1, exchange, routingKey, mandatory, immediate);
    Kinds3(Short(reserved1), ShortStr(exchange), ShortStr(routingKey));
    Layout(Amqp091, 60, 40, Sig([ShortK, ShortstrK, ShortstrK], 2, []), [Short(reserved1), ShortStr(exchange),
        ShortStr(routingKey)], [mandatory, immediate], []);
  }

  lemma {:induction false} BasicReturnPut(replyCode: uint16, replyText: bytes, exchange: bytes, routingKey: bytes)
    requires |replyText| <= 0xFF && |exchange| <= 0xFF && |routingKey| <= 0xFF
    ensures Plain([Short(replyCode), ShortStr(replyText), ShortStr(exchange), ShortStr(routingKey)])
    ensures Put(PutFlags(Put(Ids(60, 50), [Short(replyCode), ShortStr(replyText), ShortStr(exchange),
        ShortStr(routingKey)]), []), [])
            == [0, 60, 0, 50] + U16(replyCode) + Str8(replyText) + Str8(exchange) + Str8(routingKey)
  {
    assert Ids(60, 50) == [0, 60, 0, 50];
    Put4([0, 60, 0, 50], Short(replyCode), ShortStr(replyText), ShortStr(exchange), ShortStr(routingKey));
  }

  /** basic.return */
  lemma {:induction false} BasicReturn(replyCode: uint16, replyText: bytes, exchange: bytes, routingKey: bytes)
    requires |replyText| <= 0xFF && |exchange| <= 0xFF && |routingKey| <= 0xFF
    ensures ValidSpec(Amqp091)
    ensures Wire(Amqp091, 60, 50, [Short(replyCode), ShortStr(replyText), ShortStr(exchange),
        ShortStr(routingKey)], [], [],
              [0, 60, 0, 50] + U16(replyCode) + Str8(replyText) + Str8(exchange) + Str8(routingKey))
  {
    Amqp091Valid();
    BasicReturnPut(replyCode, replyText, exchange, routingKey);
    Kinds4(Short(replyCode), ShortStr(replyText), ShortStr(exchange), ShortStr(routingKey));
    Layout(Amqp091, 60, 50, Sig([ShortK, ShortstrK, ShortstrK, ShortstrK], 0, []), [Short(replyCode),
        ShortStr(replyText), ShortStr(exchange), ShortStr(routingKey)], [], []);
  }

  lemma {:induction false} BasicDeliverPut(consumerTag: bytes, deliveryTag: uint64, redelivered: bool,
      exchange: bytes, routingKey: bytes)
    requires |consumerTag| <= 0xFF && |exchange| <= 0xFF && |routingKey| <= 0xFF
    ensures Plain([ShortStr(consumerTag), LongLong(deliveryTag)]) && Plain([ShortStr(exchange), ShortStr(routingKey)])
    ensures Put(PutFlags(Put(Ids(60, 60), [ShortStr(consumerTag), LongLong(deliveryTag)]), [redelivered]),
        [ShortStr(exchange), ShortStr(routingKey)])
            == [0, 60, 0, 60] + Str8(consumerTag) + U64(deliveryTag) + [Flag(redelivered, 1)] + Str8(exchange)
                + Str8(routingKey)
  {
    assert Ids(60, 60) == [0, 60, 0, 60];
    Put2([0, 60, 0, 60], ShortStr(consumerTag), LongLong(deliveryTag));
    PutFlags1(Put([0, 60, 0, 60], [ShortStr(consumerTag), LongLong(deliveryTag)]), redelivered);
    Put2(PutFlags(Put([0, 60, 0, 60], [ShortStr(consumerTag), LongLong(deliveryTag)]), [redelivered]),
        ShortStr(exchange), ShortStr(routingKey));
  }

  /** basic.deliver */
  lemma {:induction false} BasicDeliver(consumerTag: bytes, deliveryTag: uint64, redelivered: bool,
      exchange: bytes, routingKey: bytes)
    requires |consumerTag| <= 0xFF && |exchange| <= 0xFF && |routingKey| <= 0xFF
    ensures ValidSpec(Amqp091)
    ensures Wire(Amqp091, 60, 60, [ShortStr(consumerTag), LongLong(deliveryTag)], [redelivered],
        [ShortStr(exchange), ShortStr(routingKey)],
              [0, 60, 0, 60] + Str8(consumerTag) + U64(deliveryTag) + [Flag(redelivered, 1)] + Str8(exchange)
                  + Str8(routingKey))
  {
    Amqp091Valid();
    BasicDeliverPut(consumerTag, deliveryTag, redelivered, exchange, routingKey);
    Kinds2(ShortStr(consumerTag), LongLong(deliveryTag));
    Kinds2(ShortStr(exchange), ShortStr(routingKey));
    Layout(Amqp091, 60, 60, Sig([ShortstrK, LongLongK], 1, [ShortstrK, ShortstrK]), [ShortStr(consumerTag),
        LongLong(deliveryTag)], [redelivered], [ShortStr(exchange), ShortStr(routingKey)]);
  }

  lemma {:induction false} BasicGetPut(reserved1: uint16, queue: bytes, noAck: bool)
    requires |queue| <= 0xFF
    ensures Plain([Short(reserved1), ShortStr(queue)])
    ensures Put(PutFlags(Put(Ids(60, 70), [Short(reserved1), ShortStr(queue)]), [noAck]), [])
            == [0, 60, 0, 70] + U16(reserved1) + Str8(queue) + [Flag(noAck, 1)]
  {
    assert Ids(60, 70) == [0, 60, 0, 70];
    Put2([0, 60, 0, 70], Short(reserved1), ShortStr(queue));
    PutFlags1(Put([0, 60, 0, 70], [Short(reserved1), ShortStr(queue)]), noAck);
  }

  /** basic.get */
  lemma {:induction false} BasicGet(reserved1: uint16, queue: bytes, noAck: bool)
    requires |queue| <= 0xFF
    ensures ValidSpec(Amqp091)
    ensures Wire(Amqp091, 60, 70, [Short(reserved1), ShortStr(queue)], [noAck], [],
              [0, 60, 0, 70] + U16(reserved1) + Str8(queue) + [Flag(noAck, 1)])
  {
    Amqp091Valid();
    BasicGetPut(reserved1, queue, noAck);
    Kinds2(Short(reserved1), ShortStr(queue));
    Layout(Amqp091, 60, 70, Sig([ShortK, ShortstrK], 1, []), [Short(reserved1), ShortStr(queue)], [noAck], []);
  }

  lemma {:induction false} BasicGetOkPut(deliveryTag: uint64, redelivered: bool, exchange: bytes,
      routingKey: bytes, messageCount: uint32)
    requires |exchange| <= 0xFF && |routingKey| <= 0xFF
    ensures Plain([LongLong(deliveryTag)]) && Plain([ShortStr(exchange), ShortStr(routingKey), Long(messageCount)])
    ensures Put(PutFlags(Put(Ids(60, 71), [LongLong(deliveryTag)]), [redelivered]), [ShortStr(exchange),
        ShortStr(routingKey), Long(messageCount)])
            == [0, 60, 0, 71] + U64(deliveryTag) + [Flag(redelivered, 1)] + Str8(exchange) + Str8(routingKey)
                + U32(messageCount)
  {
    assert Ids(60, 71) == [0, 60, 0, 71];
    Put1([0, 60, 0, 71], LongLong(deliveryTag));
    PutFlags1(Put([0, 60, 0, 71], [LongLong(deliveryTag)]), redelivered);
    Put3(PutFlags(Put([0, 60, 0, 71], [LongLong(deliveryTag)]), [redelivered]), ShortStr(exchange),
        ShortStr(routingKey), Long(messageCount));
  }

  /** basic.get-ok */
  lemma {:induction false} BasicGetOk(deliveryTag: uint64, redelivered: bool, exchange: bytes,
      routingKey: bytes, messageCount: uint32)
    requires |exchange| <= 0xFF && |routingKey| <= 0xFF
    ensures ValidSpec(Amqp091)
    ensures Wire(Amqp091, 60, 71, [LongLong(deliveryTag)], [redelivered], [ShortStr(exchange),
        ShortStr(routingKey), Long(messageCount)],
              [0, 60, 0, 71] + U64(deliveryTag) + [Flag(redelivered, 1)] + Str8(exchange) + Str8(routingKey)
                  + U32(messageCount))
  {
    Amqp091Valid();
    BasicGetOkPut(deliveryTag, redelivered, exchange, routingKey, messageCount);
    Kinds1(LongLong(deliveryTag));
    Kinds3(ShortStr(exchange), ShortStr(routingKey), Long(messageCount));
    Layout(Amqp091, 60, 71, Sig([LongLongK], 1, [ShortstrK, ShortstrK, LongK]), [LongLong(deliveryTag)],
        [redelivered], [ShortStr(exchange), ShortStr(routingKey), Long(messageCount)]);
  }

  /** basic.get-empty */
  lemma {:induction false} BasicGetEmpty(reserved1: bytes)
    requires |reserved1| <= 0xFF
    ensures ValidSpec(Amqp091)
    ensures Wire(Amqp091, 60, 72, [ShortStr(reserved1)], [], [],
              [0, 60, 0, 72] + Str8(reserved1))
  {
    Amqp091Valid();
    assert Ids(60, 72) == [0, 60, 0, 72];
    Put1([0, 60, 0, 72], ShortStr(reserved1));
    Kinds1(ShortStr(reserved1));
    Layout(Amqp091, 60, 72, Sig([ShortstrK], 0, []), [ShortStr(reserved1)], [], []);
  }

  /** basic.ack */
  lemma {:induction false} BasicAck(deliveryTag: uint64, multiple: bool)
    ensures ValidSpec(Amqp091)
    ensures Wire(Amqp091, 60, 80, [LongLong(deliveryTag)], [multiple], [],
              [0, 60, 0, 80] + U64(deliveryTag) + [Flag(multiple, 1)])
  {
    Amqp091Valid();
    assert Ids(60, 80) == [0, 60, 0, 80];
    Put1([0, 60, 0, 80], LongLong(deliveryTag));
    PutFlags1(Put([0, 60, 0, 80], [LongLong(deliveryTag)]), multiple);
    Kinds1(LongLong(deliveryTag));
    Layout(Amqp091, 60, 80, Sig([LongLongK], 1, []), [LongLong(deliveryTag)], [multiple], []);
  }

  /** basic.reject */
  lemma {:induction false} BasicReject(deliveryTag: uint64, requeue: bool)
    ensures ValidSpec(Amqp091)
    ensures Wire(Amqp091, 60, 90, [LongLong(deliveryTag)], [requeue], [],
              [0, 60, 0, 90] + U64(deliveryTag) + [Flag(requeue, 1)])
  {
    Amqp091Valid();
    assert Ids(60, 90) == [0, 60, 0, 90];
    Put1([0, 60, 0, 90], LongLong(deliveryTag));
    PutFlags1(Put([0, 60, 0, 90], [LongLong(deliveryTag)]), requeue);
    Kinds1(LongLong(deliveryTag));
    Layout(Amqp091, 60, 90, Sig([LongLongK], 1, []), [LongLong(deliveryTag)], [requeue], []);
  }

  /** basic.recover-async */
  lemma {:induction false} BasicRecoverAsync(requeue: bool)
    ensures ValidSpec(Amqp091)
    ensures Wire(Amqp091, 60, 100, [], [requeue], [],
              [0, 60, 0, 100] + [Flag(requeue, 1)])
  {
    Amqp091Valid();
    assert Ids(60, 100) == [0, 60, 0, 100];
    PutFlags1(Put([0, 60, 0, 100], []), requeue);
    Layout(Amqp091, 60, 100, Sig([], 1, []), [], [requeue], []);
  }

  /** basic.recover */
  lemma {:induction false} BasicRecover(requeue: bool)
    ensures ValidSpec(Amqp091)
    ensures Wire(Amqp091, 60, 110, [], [requeue], [],
              [0, 60, 0, 110] + [Flag(requeue, 1)])
  {
    Amqp091Valid();
    assert Ids(60, 110) == [0, 60, 0, 110];
    PutFlags1(Put([0, 60, 0, 110], []), requeue);
    Layout(Amqp091, 60, 110, Sig([], 1, []), [], [requeue], []);
  }

  lemma {:induction false} BasicNackPut(deliveryTag: uint64, multiple: bool, requeue: bool)
    ensures Plain([LongLong(deliveryTag)])
    ensures Put(PutFlags(Put(Ids(60, 120), [LongLong(deliveryTag)]), [multiple, requeue]), [])
            == [0, 60, 0, 120] + U64(deliveryTag) + [Flag(multiple, 1) + Flag(requeue, 2)]
  {
    assert Ids(60, 120) == [0, 60, 0, 120];
    Put1([0, 60, 0, 120], LongLong(deliveryTag));
    PutFlags2(Put([0, 60, 0, 120], [LongLong(deliveryTag)]), multiple, requeue);
  }

  /** basic.nack */
  lemma {:induction false} BasicNack(deliveryTag: uint64, multiple: bool, requeue: bool)
    ensures ValidSpec(Amqp091)
    ensures Wire(Amqp091, 60, 120, [LongLong(deliveryTag)], [multiple, requeue], [],
              [0, 60, 0, 120] + U64(deliveryTag) + [Flag(multiple, 1) + Flag(requeue, 2)])
  {
    Amqp091Valid();
    BasicNackPut(deliveryTag, multiple, requeue);
    Kinds1(LongLong(deliveryTag));
    Layout(Amqp091, 60, 120, Sig([LongLongK], 2, []), [LongLong(deliveryTag)], [multiple, requeue], []);
  }

  /** confirm.select */
  lemma {:induction false} ConfirmSelect(nowait: bool)
    ensures ValidSpec(Amqp091)
    ensures Wire(Amqp091, 85, 10, [], [nowait], [],
              [0, 85, 0, 10] + [Flag(nowait, 1)])
  {
    Amqp091Valid();
    assert Ids(85, 10) == [0, 85, 0, 10];
    PutFlags1(Put([0, 85, 0, 10], []), nowait);
    Layout(Amqp091, 85, 10, Sig([], 1, []), [], [nowait], []);
  }

  /** The methods without fields. */
  predicate Fieldless(classId: uint16, id: uint16) {
    (classId, id) in {(10, 51), (10, 61), (10, 71), (20, 41), (40, 11), (40, 21), (40, 31), (40, 51), (50, 21),
        (50, 51), (60, 11), (60, 111), (90, 10), (90, 11), (90, 20), (90, 21), (90, 30), (90, 31), (85, 11)}
  }

  lemma {:induction false} NoFields(classId: uint16, id: uint16)
    requires Fieldless(classId, id)
    ensures ValidSpec(Amqp091) && Wire(Amqp091, classId, id, [], [], [], [0, classId, 0, id])
  {
    Amqp091Valid();
    assert Ids(classId, id) == [0, classId, 0, id];
    Layout(Amqp091, classId, id, Sig([], 0, []), [], [], []);
  }

  /** These are all the methods there are. */
  lemma {:induction false} NoOthers(classId: uint16, id: uint16)
    ensures Amqp091(classId, id).Some? <==>
              match classId
              case 10 => id in {10, 11, 20, 21, 30, 31, 40, 41, 50, 51, 60, 61, 70, 71}
              case 20 => id in {10, 11, 20, 21, 40, 41}
              case 40 => id in {10, 11, 20, 21, 30, 31, 40, 51}
              case 50 => id in {10, 11, 20, 21, 30, 31, 40, 41, 50, 51}
              case 60 => id in {10, 11, 20, 21, 30, 31, 40, 50, 60, 70, 71, 72, 80, 90, 100, 110, 111, 120}
              case 90 => id in {10, 11, 20, 21, 30, 31}
              case 85 => id in {10, 11}
              case _ => false
  {
  }
}
