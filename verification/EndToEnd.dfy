/** From publish to dispatch through the octets on the wire. */
module EndToEnd {
  import opened Bytes
  import opened Options
  import opened Sequences
  import opened Primitives
  import opened Reassembly
  import opened Demux
  import opened Multiplex
  import F = Frames
  import H = Headers
  import M = MethodFrames
  import S = Spec091
  import L = Layouts

  // ----- reassembly does not look inside methods and properties -----

  function NormalMsg(msg: Msg): Msg {
    match msg
    case Plain(m) => Plain(M.NormalMethod(m))
    case Content(m, props, body) => Content(M.NormalMethod(m), H.NormalProperties(props), body)
  }

  function NormalMsgs(msgs: seq<Msg>): seq<Msg> {
    seq(|msgs|, i requires 0 <= i < |msgs| => NormalMsg(msgs[i]))
  }

  function NormalRecv(s: Recv): Recv {
    match s
    case AwaitMethod => AwaitMethod
    case AwaitHeader(m) => AwaitHeader(M.NormalMethod(m))
    case AwaitBody(m, size, props, body) => AwaitBody(M.NormalMethod(m), size, H.NormalProperties(props), body)
  }

  lemma {:induction false} NormalStep(s: Recv, f: Frame)
    requires !f.HeartbeatFrame?
    ensures !F.NormalFrame(f).HeartbeatFrame?
    ensures var (s', out) := Step(s, f);
            Step(NormalRecv(s), F.NormalFrame(f)) == (NormalRecv(s'), NormalMsgs(out))
  {
    var out := Step(s, f).1;
    if out == [] {
      assert NormalMsgs(out) == [];
    } else {
      assert NormalMsgs(out) == [NormalMsg(out[0])];
    }
  }

  lemma {:induction false} NormalMsgsConcat(a: seq<Msg>, b: seq<Msg>)
    ensures NormalMsgs(a + b) == NormalMsgs(a) + NormalMsgs(b)
  {
  }

  lemma {:induction false} NormalFeed(s: Recv, fs: seq<Frame>)
    requires NoHeartbeats(fs)
    ensures NoHeartbeats(F.NormalFrames(fs))
    ensures var (s', out) := Feed(s, fs);
            Feed(NormalRecv(s), F.NormalFrames(fs)) == (NormalRecv(s'), NormalMsgs(out))
  {
    if fs == [] {
      assert F.NormalFrames(fs) == [] && NormalMsgs([]) == [];
    } else {
      var n := |fs|;
      var before, f := fs[..n - 1], fs[n - 1];
      NormalFeed(s, before);
      var (s1, o1) := Feed(s, before);
      NormalStep(s1, f);
      NormalMsgsConcat(o1, Step(s1, f).1);
      assert F.NormalFrames(fs) == F.NormalFrames(before) + [F.NormalFrame(f)];
      FeedSnoc(NormalRecv(s), F.NormalFrames(before), F.NormalFrame(f));
    }
  }

  lemma {:induction false} NormalProject(wire: seq<Frame>, c: uint16)
    ensures Project(F.NormalFrames(wire), c) == F.NormalFrames(Project(wire, c))
  {
    if wire != [] {
      var n := |wire|;
      var before, f := wire[..n - 1], wire[n - 1];
      NormalProject(before, c);
      assert F.NormalFrames(wire)[..n - 1] == F.NormalFrames(before);
      assert F.NormalFrame(f).channel == f.channel;
      NormalFramesConcat(Project(before, c), if f.channel == c then [f] else []);
    }
  }

  lemma {:induction false} NormalFramesConcat(a: seq<Frame>, b: seq<Frame>)
    ensures F.NormalFrames(a + b) == F.NormalFrames(a) + F.NormalFrames(b)
  {
  }

  lemma {:induction false} NormalUpTo(fs: seq<Frame>)
    ensures Any(F.NormalFrames(fs), IsChannelClose) <==> Any(fs, IsChannelClose)
    ensures UpTo(F.NormalFrames(fs), IsChannelClose) == F.NormalFrames(UpTo(fs, IsChannelClose))
  {
    if fs != [] {
      var n := |fs|;
      var before, f := fs[..n - 1], fs[n - 1];
      NormalUpTo(before);
      assert fs == before + [f];
      NormalFramesConcat(before, [f]);
      assert F.NormalFrames([f]) == [F.NormalFrame(f)];
      UpToSnoc(before, f, IsChannelClose);
      UpToSnoc(F.NormalFrames(before), F.NormalFrame(f), IsChannelClose);
    }
  }

  lemma {:induction false} NormalDemux(ids: set<uint16>, wire: seq<Frame>, c: uint16)
    requires AllRoutable(wire) && c != 0 && c in ids
    ensures AllRoutable(F.NormalFrames(wire))
    ensures var r, r' := DemuxAll(Listeners(ids), wire), DemuxAll(Listeners(ids), F.NormalFrames(wire));
            && Known(r, c) && Known(r', c) && (c in r'.open <==> c in r.open)
            && Seen(r', c).dispatched == NormalMsgs(Seen(r, c).dispatched)
  {
    var w := F.NormalFrames(wire);
    assert forall i | 0 <= i < |w| :: w[i] == F.NormalFrame(wire[i]);
    DemuxProjects(Listeners(ids), wire, c);
    DemuxProjects(Listeners(ids), w, c);
    NormalProject(wire, c);
    var p := Project(wire, c);
    NormalUpTo(p);
    NormalFeed(AwaitMethod, UpTo(p, IsChannelClose));
    var out := Feed(AwaitMethod, UpTo(p, IsChannelClose)).1;
    assert [] + out == out && [] + NormalMsgs(out) == NormalMsgs(out);
  }

  /** What a receiver makes of the octets of some frames. */
  ghost predicate Dispatches(spec: M.Spec, ids: set<uint16>, ws: seq<F.Laid>, c: uint16, msgs: seq<Msg>)
    requires M.ValidSpec(spec) && F.FitsFrames(spec, ws)
  {
    var (frames, end) := F.ReadFrames(spec, F.EncodeFrames(spec, ws));
    && end == EOF && AllRoutable(frames)
    && var r := DemuxAll(Listeners(ids), frames);
    && Known(r, c) && Seen(r, c).dispatched == msgs
    && (c in r.open <==> !Any(msgs, IsClose))
  }

  lemma {:induction false} ThroughOctets(spec: M.Spec, ids: set<uint16>, ws: seq<F.Laid>, wire: seq<Frame>, c: uint16, msgs: seq<Msg>)
    requires M.ValidSpec(spec) && F.Sendable(spec, ws, wire)
    requires AllRoutable(wire) && c != 0 && c in ids
    requires Known(DemuxAll(Listeners(ids), wire), c) && Seen(DemuxAll(Listeners(ids), wire), c).dispatched == msgs
    requires c in DemuxAll(Listeners(ids), wire).open <==> !Any(msgs, IsClose)
    ensures Dispatches(spec, ids, ws, c, NormalMsgs(msgs))
  {
    F.FramesRoundTrip(spec, ws, wire);
    NormalDemux(ids, wire, c);
    NormalClose(msgs);
  }

  lemma {:induction false} NormalClose(msgs: seq<Msg>)
    ensures Any(NormalMsgs(msgs), IsClose) <==> Any(msgs, IsClose)
  {
    forall i | 0 <= i < |msgs|
      ensures IsClose(NormalMsgs(msgs)[i]) <==> IsClose(msgs[i])
    {
    }
  }

  /** Take any interleaving of senders, write its frames as octets with every map ranged over in any
      order, read the octets back, demultiplex and reassemble: every channel dispatches exactly the
      messages sent on it that no RPC frame cut, in order, as a peer receives their values, up to the
      first channel.close. */
  lemma {:induction false} PublishToDispatch(spec: M.Spec, ids: set<uint16>, es: seq<Event>, fs: nat, ws: seq<F.Laid>, c: uint16)
    requires M.ValidSpec(spec) && GoodFrameSize(fs) && 0 !in ids && c in ids
    requires F.Sendable(spec, ws, Run(ids, es, fs).wire)
    ensures Dispatches(spec, ids, ws, c, NormalMsgs(UpTo(Run(ids, es, fs).chans[c].kept, IsClose)))
  {
    var s := Run(ids, es, fs);
    DispatchesWhatWasSent(ids, es, fs, c);
    UpToMeaning(s.chans[c].kept, IsClose);
    ThroughOctets(spec, ids, ws, s.wire, c, UpTo(s.chans[c].kept, IsClose));
  }

  // ----- an RPC does cut a message -----

  /** After `es` the one channel of a healthy connection is in state `ch`, and `wire` has been written. */
  ghost predicate At(es: seq<Event>, ch: Chan, wire: seq<Frame>) {
    var s := Run({1}, es, 0);
    s.chans[1] == ch && s.wire == wire && !s.connClosed && !s.broken
  }

  lemma {:induction false} StepAt(es: seq<Event>, ch: Chan, wire: seq<Frame>, e: Event, ch': Chan, out: seq<Frame>)
    requires At(es, ch, wire) && WellFormedChan(ch, 1, 0)
    requires !e.CloseConn? && !e.Connection0? && e.c == 1 && ChanStep(ch, 1, e, 0, false, false) == (ch', false, out)
    ensures At(es + [e], ch', wire + out)
  {
    RunSnoc({1}, es, e, 0);
    NextOfChannel(Run({1}, es, 0), e, 0);
  }

  /** A check that is passed, and the write that follows it. */
  lemma {:induction false} TwoSteps(before: seq<Event>, ch: Chan, wire: seq<Frame>, e1: Event, mid: Chan, e2: Event, ch': Chan, out: seq<Frame>)
    returns (es: seq<Event>)
    requires At(before, ch, wire) && WellFormedChan(ch, 1, 0) && WellFormedChan(mid, 1, 0)
    requires !e1.CloseConn? && !e1.Connection0? && e1.c == 1 && ChanStep(ch, 1, e1, 0, false, false) == (mid, false, [])
    requires !e2.CloseConn? && !e2.Connection0? && e2.c == 1 && ChanStep(mid, 1, e2, 0, false, false) == (ch', false, out)
    ensures At(es, ch', wire + out)
  {
    StepAt(before, ch, wire, e1, mid, []);
    assert wire + [] == wire;
    StepAt(before + [e1], mid, wire, e2, ch', out);
    es := before + [e1] + [e2];
  }

  /** A message with content but no body: a method frame and a header frame. */
  ghost predicate Bodiless(msg: Msg) {
    WellFormed(msg) && msg.Content? && msg.body == []
  }

  function HeaderOf(msg: Msg): Frame
    requires msg.Content?
  {
    F.HeaderFrame(1, msg.m.classId, 0, 0, msg.props)
  }

  lemma {:induction false} BodilessFrames(msg: Msg)
    requires Bodiless(msg)
    ensures FramesOf(1, msg, 0) == [F.MethodFrame(1, msg.m), HeaderOf(msg)]
  {
    assert BodyChunks(msg, 0) == [];
  }

  function Held(msg: Msg, stage: Stage): Chan {
    NEW_CHAN.(holder := Some(Holder(msg, stage, false)))
  }

  lemma {:induction false} LockedRun(msg: Msg) returns (es: seq<Event>)
    requires Bodiless(msg)
    ensures At(es, Held(msg, Sending(0, false)), [])
  {
    BodilessFrames(msg);
    StepAt([], NEW_CHAN, [], Acquire(1, msg), Held(msg, Locked), []);
    es := [] + [Acquire(1, msg)];
    StepAt(es, Held(msg, Locked), [], CheckOpen(1), Held(msg, Sending(0, false)), []);
    es := es + [CheckOpen(1)];
  }

  lemma {:induction false} FirstFrame(msg: Msg)
    requires Bodiless(msg)
    ensures var ch, ch' := Held(msg, Sending(0, false)), Held(msg, Sending(0, true));
            && WellFormedChan(ch, 1, 0) && WellFormedChan(ch', 1, 0)
            && ChanStep(ch, 1, CheckConn(1), 0, false, false) == (ch', false, [])
            && ChanStep(ch', 1, Write(1, true), 0, false, false)
               == (Held(msg, Sending(1, false)), false, [F.MethodFrame(1, msg.m)])
  {
    BodilessFrames(msg);
  }

  /** The method frame of the message is out. */
  lemma {:induction false} HalfSentRun(msg: Msg) returns (es: seq<Event>)
    requires Bodiless(msg)
    ensures At(es, Held(msg, Sending(1, false)), [F.MethodFrame(1, msg.m)])
  {
    es := LockedRun(msg);
    FirstFrame(msg);
    es := TwoSteps(es, Held(msg, Sending(0, false)), [], CheckConn(1), Held(msg, Sending(0, true)),
                   Write(1, true), Held(msg, Sending(1, false)), [F.MethodFrame(1, msg.m)]);
    assert [] + [F.MethodFrame(1, msg.m)] == [F.MethodFrame(1, msg.m)];
  }

  /** The channel after the RPC frame, and after the message has been finished none the less. */
  function Torn(msg: Msg, rpc: Method, cleared: bool): Chan {
    NEW_CHAN.(holder := Some(Holder(msg, Sending(1, cleared), true)), log := [Plain(rpc)], kept := [Plain(rpc)],
              clean := false)
  }

  function TornDone(msg: Msg, rpc: Method): Chan {
    Torn(msg, rpc, false).(holder := Some(Holder(msg, Sending(2, false), true)), log := [Plain(rpc), msg], held := [msg])
  }

  lemma {:induction false} RpcTears(msg: Msg, rpc: Method)
    requires Bodiless(msg) && !HasContent(rpc)
    ensures var ch := Held(msg, Sending(1, false));
            && WellFormedChan(ch, 1, 0)
            && ChanStep(ch, 1, Rpc(1, rpc, true), 0, false, false) == (Torn(msg, rpc, false), false, [F.MethodFrame(1, rpc)])
  {
    BodilessFrames(msg);
    assert [] + [Plain(rpc)] == [Plain(rpc)];
  }

  lemma {:induction false} TornGoesOn(msg: Msg, rpc: Method)
    requires Bodiless(msg) && !HasContent(rpc)
    ensures WellFormedChan(Torn(msg, rpc, false), 1, 0) && WellFormedChan(Torn(msg, rpc, true), 1, 0)
    ensures ChanStep(Torn(msg, rpc, false), 1, CheckConn(1), 0, false, false) == (Torn(msg, rpc, true), false, [])
    ensures ChanStep(Torn(msg, rpc, true), 1, Write(1, true), 0, false, false) == (TornDone(msg, rpc), false, [HeaderOf(msg)])
  {
    BodilessFrames(msg);
    assert [Plain(rpc)] + [msg] == [Plain(rpc), msg] && [] + [msg] == [msg];
  }

  function CutWire(msg: Msg, rpc: Method): seq<Frame>
    requires msg.Content?
  {
    [F.MethodFrame(1, msg.m)] + [F.MethodFrame(1, rpc)] + [HeaderOf(msg)]
  }

  lemma {:induction false} RpcRun(msg: Msg, rpc: Method) returns (es: seq<Event>)
    requires Bodiless(msg) && !HasContent(rpc)
    ensures At(es, Torn(msg, rpc, false), [F.MethodFrame(1, msg.m)] + [F.MethodFrame(1, rpc)])
  {
    es := HalfSentRun(msg);
    RpcTears(msg, rpc);
    StepAt(es, Held(msg, Sending(1, false)), [F.MethodFrame(1, msg.m)], Rpc(1, rpc, true),
           Torn(msg, rpc, false), [F.MethodFrame(1, rpc)]);
    es := es + [Rpc(1, rpc, true)];
  }

  /** The RPC frame lands between the two frames of the message. */
  lemma {:induction false} CutRun(msg: Msg, rpc: Method) returns (es: seq<Event>)
    requires Bodiless(msg) && !HasContent(rpc)
    ensures At(es, TornDone(msg, rpc), CutWire(msg, rpc))
  {
    es := RpcRun(msg, rpc);
    TornGoesOn(msg, rpc);
    var w: seq<Frame> := [F.MethodFrame(1, msg.m)] + [F.MethodFrame(1, rpc)];
    es := TwoSteps(es, Torn(msg, rpc, false), w, CheckConn(1), Torn(msg, rpc, true),
                   Write(1, true), TornDone(msg, rpc), [HeaderOf(msg)]);
  }

  /** Every message without a body can be cut by every RPC: it is sent in full, and the receiver
      dispatches the RPC and nothing else. */
  lemma {:induction false} AnyRpcCuts(msg: Msg, rpc: Method) returns (es: seq<Event>)
    requires Bodiless(msg) && !HasContent(rpc)
    ensures var s := Run({1}, es, 0);
            && s.wire == CutWire(msg, rpc)
            && s.chans[1].log == [Plain(rpc), msg]
            && var r := DemuxAll(Listeners({1}), s.wire);
            && Known(r, 1) && Seen(r, 1).dispatched == [Plain(rpc)]
            && (1 in r.open <==> !Any([Plain(rpc)], IsClose))
  {
    es := CutRun(msg, rpc);
    DispatchesWhatWasSent({1}, es, 0, 1);
    UpToMeaning([Plain(rpc)], IsClose);
  }

  /** tx.select, as Channel.Tx calls it. */
  function TxSelect<T>(): M.Method<T> {
    M.Method(90, 10, [])
  }

  function NoProperties<T>(headers: T): H.Properties<T> {
    H.Properties([], [], headers, 0, 0, [], [], [], [], H.NO_TIME, [], [], [], [])
  }

  function LaidHeader(): F.Laid {
    F.HeaderFrame(1, 60, 0, 0, NoProperties([]))
  }

  lemma {:induction false} NothingListed(slots: seq<H.Laid>, mask: H.Mask, k: nat)
    requires k <= |slots| <= 16 && H.SupportedSlots(slots) && forall j | 0 <= j < |slots| :: !H.HasProperty(mask, j)
    ensures H.EncodeSlots(slots, mask, k) == []
    decreases |slots| - k
  {
    if k < |slots| {
      NothingListed(slots, mask, k + 1);
    }
  }

  ghost predicate Fits(spec: M.Spec, w: F.Laid, v: Frame) {
    F.FitsFrame(spec, w) && F.OrdersFrame(w, v)
  }

  lemma {:induction false} EmptyProperties()
    ensures H.FitsProperties(NoProperties([])) && |H.EncodeProperties(H.Slots(NoProperties([])))| == 2
  {
    var slots := H.Slots(NoProperties([]));
    forall k | 0 <= k < |slots|
      ensures H.FitsSlot(slots[k]) && !H.Present(slots[k])
    {
    }
    NothingListed(slots, H.MaskOf(slots), 0);
  }

  lemma {:induction false} EmptyOrders()
    ensures H.OrdersProperties(NoProperties([]), NoProperties(map[]))
  {
    var ws, vs := H.Slots(NoProperties([])), H.Slots(NoProperties(map[]));
    forall k | 0 <= k < |ws|
      ensures H.OrdersSlot(ws[k], vs[k])
    {
    }
  }

  lemma {:induction false} EmptyHeaderFits(spec: M.Spec)
    ensures Fits(spec, LaidHeader(), F.HeaderFrame(1, 60, 0, 0, NoProperties(map[])))
  {
    EmptyProperties();
    EmptyOrders();
    assert |F.Payload(spec, LaidHeader())| == 14;
  }

  lemma {:induction false} TxSelectFits()
    ensures Fits(S.Amqp091, F.MethodFrame(1, TxSelect()), F.MethodFrame(1, TxSelect()))
  {
    assert M.SigFields(M.Sig([], 0, [])) == [];
  }

  lemma {:induction false} PublishFits(exchange: bytes, key: bytes, mandatory: bool, immediate: bool)
    requires |exchange| <= 0xFF && |key| <= 0xFF
    ensures Fits(S.Amqp091, F.MethodFrame(1, L.Publish(exchange, key, mandatory, immediate)),
                 F.MethodFrame(1, L.Publish(exchange, key, mandatory, immediate)))
  {
    L.BasicPublishOctets(exchange, key, mandatory, immediate);
  }

  lemma {:induction false} NormalTxSelect()
    ensures NormalMsgs([Plain(TxSelect())]) == [Plain(TxSelect())]
  {
    var m: Method := TxSelect();
    assert M.NormalMethod(m).args == m.args;
    assert NormalMsg(Plain(m)) == Plain(m);
  }

  lemma {:induction false} OneMoreFits(spec: M.Spec, ws: seq<F.Laid>, vs: seq<Frame>, w: F.Laid, v: Frame)
    requires F.Sendable(spec, ws, vs) && Fits(spec, w, v)
    ensures F.Sendable(spec, ws + [w], vs + [v])
  {
  }

  lemma {:induction false} OneFits(spec: M.Spec, w: F.Laid, v: Frame)
    requires Fits(spec, w, v)
    ensures F.Sendable(spec, [w], [v])
  {
  }

  function BarePublish(exchange: bytes, key: bytes, mandatory: bool, immediate: bool): Msg {
    Content(L.Publish(exchange, key, mandatory, immediate), NoProperties(map[]), [])
  }

  lemma {:induction false} CutSendable(exchange: bytes, key: bytes, mandatory: bool, immediate: bool)
    returns (ws: seq<F.Laid>)
    requires |exchange| <= 0xFF && |key| <= 0xFF
    ensures Bodiless(BarePublish(exchange, key, mandatory, immediate))
    ensures F.Sendable(S.Amqp091, ws, CutWire(BarePublish(exchange, key, mandatory, immediate), TxSelect()))
  {
    var msg := BarePublish(exchange, key, mandatory, immediate);
    var w1: F.Laid, v1: Frame := F.MethodFrame(1, L.Publish(exchange, key, mandatory, immediate)), F.MethodFrame(1, msg.m);
    var w2: F.Laid, v2: Frame := F.MethodFrame(1, TxSelect()), F.MethodFrame(1, TxSelect());
    PublishFits(exchange, key, mandatory, immediate);
    OneFits(S.Amqp091, w1, v1);
    TxSelectFits();
    OneMoreFits(S.Amqp091, [w1], [v1], w2, v2);
    EmptyHeaderFits(S.Amqp091);
    OneMoreFits(S.Amqp091, [w1] + [w2], [v1] + [v2], LaidHeader(), HeaderOf(msg));
    ws := [w1] + [w2] + [LaidHeader()];
  }

  /** A message that is cut on the wire is lost to a receiver of the octets. */
  lemma {:induction false} CutThroughOctets(spec: M.Spec, msg: Msg, rpc: Method, ws: seq<F.Laid>) returns (es: seq<Event>)
    requires M.ValidSpec(spec) && Bodiless(msg) && !HasContent(rpc) && F.Sendable(spec, ws, CutWire(msg, rpc))
    ensures Run({1}, es, 0).wire == CutWire(msg, rpc) && Run({1}, es, 0).chans[1].log == [Plain(rpc), msg]
    ensures Dispatches(spec, {1}, ws, 1, NormalMsgs([Plain(rpc)]))
  {
    es := AnyRpcCuts(msg, rpc);
    ThroughOctets(spec, {1}, ws, CutWire(msg, rpc), 1, [Plain(rpc)]);
  }

  /** Every publish without a body and properties can be cut by a tx.select on its channel: all its octets
      are sent, and what the receiver reads from them, demultiplexes and dispatches is the tx.select alone. */
  lemma {:induction false} RpcCutsMessage(exchange: bytes, key: bytes, mandatory: bool, immediate: bool)
    returns (es: seq<Event>, ws: seq<F.Laid>)
    requires |exchange| <= 0xFF && |key| <= 0xFF
    ensures F.Sendable(S.Amqp091, ws, Run({1}, es, 0).wire) && M.ValidSpec(S.Amqp091)
    ensures Run({1}, es, 0).chans[1].log == [Plain(TxSelect()), BarePublish(exchange, key, mandatory, immediate)]
    ensures Dispatches(S.Amqp091, {1}, ws, 1, [Plain(TxSelect())])
  {
    ws := CutSendable(exchange, key, mandatory, immediate);
    S.Amqp091Valid();
    es := CutThroughOctets(S.Amqp091, BarePublish(exchange, key, mandatory, immediate), TxSelect(), ws);
    NormalTxSelect();
  }
}
