/** Concurrent senders on one connection. A message is sent under its channel's lock, one frame at a time
    under the writer's lock; RPCs send single method frames without the channel lock. Every interleaving
    is a sequence of the events below. */
module Multiplex {
  import opened Bytes
  import opened Options
  import opened Sequences
  import opened Reassembly
  import opened Demux
  import F = Frames
  import M = MethodFrames

  /** Where the holder of a channel's lock has got to: before the closed check of Channel.send, or with
      `sent` frames written, having or not having passed the closed check of Connection for the next. */
  datatype Stage = Locked | Sending(sent: nat, cleared: bool)

  /** `torn` records that an RPC frame was written while the message was part way out. */
  datatype Holder = Holder(msg: Msg, stage: Stage, torn: bool)

  datatype Stub = Stub(msg: Msg, sent: nat)

  /** One channel. `closed` and `holder` are the protocol; the rest only records what happened:
      `log` the messages whose last frame was written, in wire order; `held` those of them that were sent
      under the lock; `kept` those that were not torn; `stub` an abandoned message; `clean` that no RPC
      frame followed an unfinished message; `closeOk` that close-ok was written. */
  datatype Chan = Chan(closed: bool, holder: Option<Holder>, log: seq<Msg>, held: seq<Msg>, kept: seq<Msg>,
                       stub: Option<Stub>, clean: bool, closeOk: bool)

  const NEW_CHAN: Chan := Chan(false, None, [], [], [], None, true, false)

  datatype Sys = Sys(wire: seq<Frame>, connClosed: bool, broken: bool, chans: map<uint16, Chan>)

  datatype Event =
    | Acquire(c: uint16, msg: Msg)      // ch.m.Lock by Publish, Ack, Nack, Reject or the close-ok of dispatch
    | CheckOpen(c: uint16)              // IsClosed of Channel.send and sendOpen
    | CheckConn(c: uint16)              // IsClosed of sendUnflushed or send, before each frame
    | Write(c: uint16, ok: bool)        // one frame under sendM; a failed write breaks the writer for good
    | Release(c: uint16)                // ch.m.Unlock
    | Rpc(c: uint16, m: Method, ok: bool) // the frame of a Channel.call or a flow-ok, without ch.m
    | Connection0(f: Frame, ok: bool)   // heartbeats and connection methods
    | MarkClosed(c: uint16)             // setClosed, by updateChannel or by shutdown
    | CloseConn                         // the closed flag of Connection

  predicate IsCloseOk(msg: Msg) {
    msg.Plain? && msg.m.classId == 20 && msg.m.methodId == 41
  }

  // ----- steps -----

  /** The holder gives up; what it had written stays behind as a stub. */
  function Abandon(ch: Chan): Chan
    requires ch.holder.Some?
  {
    var h := ch.holder.value;
    ch.(holder := None,
        stub := if h.stage.Sending? && h.stage.sent > 0 then Some(Stub(h.msg, h.stage.sent)) else ch.stub)
  }

  /** The holder writes frame number `sent`. */
  function Advanced(ch: Chan, total: nat): Chan
    requires ch.holder.Some? && ch.holder.value.stage.Sending?
  {
    var h := ch.holder.value;
    var k := h.stage.sent + 1;
    var ch' := ch.(holder := Some(h.(stage := Sending(k, false))),
                   closeOk := ch.closeOk || IsCloseOk(h.msg));
    if k == total
    then ch'.(log := ch.log + [h.msg], held := ch.held + [h.msg],
              kept := if h.torn then ch.kept else ch.kept + [h.msg])
    else ch'
  }

  /** The holder of the lock is part way through its message. */
  predicate PartWay(ch: Chan, c: uint16, fs: nat)
    requires GoodFrameSize(fs) && (ch.holder.Some? ==> WellFormed(ch.holder.value.msg))
  {
    && ch.holder.Some? && ch.holder.value.stage.Sending?
    && 0 < ch.holder.value.stage.sent < |FramesOf(c, ch.holder.value.msg, fs)|
  }

  /** The channel has an unfinished message on the wire. */
  predicate Unfinished(ch: Chan, c: uint16, fs: nat)
    requires GoodFrameSize(fs) && (ch.holder.Some? ==> WellFormed(ch.holder.value.msg))
  {
    ch.stub.Some? || PartWay(ch, c, fs)
  }

  function RpcSent(ch: Chan, c: uint16, m: Method, fs: nat): Chan
    requires GoodFrameSize(fs) && (ch.holder.Some? ==> WellFormed(ch.holder.value.msg))
  {
    ch.(log := ch.log + [Plain(m)], kept := ch.kept + [Plain(m)],
        clean := ch.clean && !Unfinished(ch, c, fs),
        holder := if PartWay(ch, c, fs) then Some(ch.holder.value.(torn := true)) else ch.holder)
  }

  predicate WellFormedChan(ch: Chan, c: uint16, fs: nat)
    requires GoodFrameSize(fs)
  {
    ch.holder.Some? ==>
      var h := ch.holder.value;
      && WellFormed(h.msg)
      && (h.stage.Sending? ==> h.stage.sent <= |FramesOf(c, h.msg, fs)|)
      && (h.stage.Sending? && h.stage.cleared ==> h.stage.sent < |FramesOf(c, h.msg, fs)|)
      && (h.torn ==> h.stage.Sending? && h.stage.sent > 0)
  }

  /** The new state of channel `c` and of the writer, and the frames written; events that are not enabled
      change nothing. */
  function ChanStep(ch: Chan, c: uint16, e: Event, fs: nat, connClosed: bool, broken: bool)
    : (r: (Chan, bool, seq<Frame>))
    requires GoodFrameSize(fs) && WellFormedChan(ch, c, fs)
  {
    match e
    case Acquire(_, msg) =>
      if ch.holder.None? && WellFormed(msg) && (IsCloseOk(msg) ==> ch.closed)
      then (ch.(holder := Some(Holder(msg, Locked, false))), broken, []) else (ch, broken, [])
    case CheckOpen(_) =>
      if ch.holder.Some? && ch.holder.value.stage.Locked? then
        if ch.closed && !IsCloseOk(ch.holder.value.msg) then (Abandon(ch), broken, [])
        else (ch.(holder := Some(ch.holder.value.(stage := Sending(0, false)))), broken, [])
      else (ch, broken, [])
    case CheckConn(_) =>
      if ch.holder.Some? && ch.holder.value.stage.Sending?
         && ch.holder.value.stage.sent < |FramesOf(c, ch.holder.value.msg, fs)| then
        if connClosed then (Abandon(ch), broken, [])
        else (ch.(holder := Some(ch.holder.value.(stage := Sending(ch.holder.value.stage.sent, true)))), broken, [])
      else (ch, broken, [])
    case Write(_, ok) =>
      if ch.holder.Some? && ch.holder.value.stage.Sending? && ch.holder.value.stage.cleared then
        if ok && !broken then
          var frames := FramesOf(c, ch.holder.value.msg, fs);
          (Advanced(ch, |frames|), broken, [frames[ch.holder.value.stage.sent]])
        else (Abandon(ch), true, [])
      else (ch, broken, [])
    case Release(_) =>
      if ch.holder.Some? && ch.holder.value.stage.Sending?
         && ch.holder.value.stage.sent == |FramesOf(c, ch.holder.value.msg, fs)|
      then (ch.(holder := None), broken, []) else (ch, broken, [])
    case Rpc(_, m, ok) =>
      if HasContent(m) then (ch, broken, [])
      else if ok && !broken then (RpcSent(ch, c, m, fs), broken, [F.MethodFrame(c, m)])
      else (ch, true, [])
    case MarkClosed(_) => (ch.(closed := true), broken, [])
    case _ => (ch, broken, [])
  }

  predicate WellFormedSys(s: Sys, fs: nat)
    requires GoodFrameSize(fs)
  {
    0 !in s.chans && forall c | c in s.chans :: WellFormedChan(s.chans[c], c, fs)
  }

  function Next(s: Sys, e: Event, fs: nat): (s': Sys)
    requires GoodFrameSize(fs) && WellFormedSys(s, fs)
  {
    match e
    case CloseConn => s.(connClosed := true)
    case Connection0(f, ok) =>
      if f.channel != 0 then s
      else if ok && !s.broken then s.(wire := s.wire + [f])
      else s.(broken := true)
    case _ =>
      if e.c !in s.chans then s else
      var (ch, broken, out) := ChanStep(s.chans[e.c], e.c, e, fs, s.connClosed, s.broken);
      s.(wire := s.wire + out, broken := broken, chans := s.chans[e.c := ch])
  }

  lemma {:induction false} NextOfChannel(s: Sys, e: Event, fs: nat)
    requires GoodFrameSize(fs) && WellFormedSys(s, fs)
    requires !e.CloseConn? && !e.Connection0? && e.c in s.chans
    ensures var (ch, broken, out) := ChanStep(s.chans[e.c], e.c, e, fs, s.connClosed, s.broken);
            Next(s, e, fs) == s.(wire := s.wire + out, broken := broken, chans := s.chans[e.c := ch])
  {
  }

  // ----- what every step keeps, for one channel -----

  /** All messages of `log`, frame by frame. */
  function WholeMessages(c: uint16, log: seq<Msg>, fs: nat): seq<Frame>
    requires GoodFrameSize(fs) && forall i | 0 <= i < |log| :: WellFormed(log[i])
  {
    if log == [] then []
    else WholeMessages(c, log[..|log| - 1], fs) + FramesOf(c, log[|log| - 1], fs)
  }

  /** The unfinished message on the wire, if any. */
  ghost function Tail(ch: Chan, c: uint16, fs: nat): seq<Frame>
    requires GoodFrameSize(fs) && WellFormedChan(ch, c, fs)
    requires ch.stub.Some? ==> WellFormed(ch.stub.value.msg) && ch.stub.value.sent < |FramesOf(c, ch.stub.value.msg, fs)|
  {
    if ch.stub.Some? then FramesOf(c, ch.stub.value.msg, fs)[..ch.stub.value.sent]
    else if ch.holder.Some? && ch.holder.value.stage.Sending?
            && ch.holder.value.stage.sent < |FramesOf(c, ch.holder.value.msg, fs)|
    then FramesOf(c, ch.holder.value.msg, fs)[..ch.holder.value.stage.sent]
    else []
  }

  ghost predicate WellFormedLog(log: seq<Msg>) {
    forall i | 0 <= i < |log| :: WellFormed(log[i])
  }

  /** An abandoned message stays the last: the connection is closed or broken, so no lock holder writes. */
  ghost predicate StubInv(ch: Chan, c: uint16, fs: nat, connClosed: bool, broken: bool)
    requires GoodFrameSize(fs)
  {
    ch.stub.Some? ==>
      && WellFormed(ch.stub.value.msg)
      && 0 < ch.stub.value.sent < |FramesOf(c, ch.stub.value.msg, fs)|
      && (ch.holder.Some? && ch.holder.value.stage.Sending? ==> ch.holder.value.stage.sent == 0)
      && (broken || (connClosed && (ch.holder.Some? ==> ch.holder.value.stage.Locked? || !ch.holder.value.stage.cleared)))
  }

  /** The frames of the channel are whole messages and then at most one unfinished one. */
  ghost predicate WireInv(ch: Chan, c: uint16, fs: nat, p: seq<Frame>)
    requires GoodFrameSize(fs) && WellFormedChan(ch, c, fs) && WellFormedLog(ch.log)
    requires ch.stub.Some? ==> WellFormed(ch.stub.value.msg) && ch.stub.value.sent < |FramesOf(c, ch.stub.value.msg, fs)|
  {
    ch.clean ==> p == WholeMessages(c, ch.log, fs) + Tail(ch, c, fs)
  }

  /** What a reassembler makes of the frames of the channel. */
  ghost predicate ReaderInv(ch: Chan, c: uint16, fs: nat, p: seq<Frame>)
    requires GoodFrameSize(fs) && WellFormedChan(ch, c, fs)
  {
    && NoHeartbeats(p)
    && var (s, out) := Feed(AwaitMethod, p);
    && out == ch.kept
    && (PartWay(ch, c, fs) ==>
          var h := ch.holder.value;
          s == if h.torn then AwaitMethod else Mid(h.msg, BodyChunks(h.msg, fs), h.stage.sent))
  }

  ghost predicate CloseInv(ch: Chan) {
    && (ch.closeOk ==> ch.closed)
    && (ch.closeOk && ch.holder.Some? && ch.holder.value.stage.Sending? ==> IsCloseOk(ch.holder.value.msg))
    && (ch.holder.Some? && IsCloseOk(ch.holder.value.msg) ==> ch.closed)
  }

  ghost predicate ChanInv(ch: Chan, c: uint16, fs: nat, connClosed: bool, broken: bool, p: seq<Frame>)
    requires GoodFrameSize(fs)
  {
    && WellFormedChan(ch, c, fs) && WellFormedLog(ch.log)
    && StubInv(ch, c, fs, connClosed, broken)
    && WireInv(ch, c, fs, p)
    && ReaderInv(ch, c, fs, p)
    && CloseInv(ch)
  }

  // ----- the steps, one by one -----

  lemma {:induction false} MessageChunks(msg: Msg, fs: nat)
    requires GoodFrameSize(fs) && msg.Content?
    ensures Chunking(BodyChunks(msg, fs), msg.body)
  {
    ChunksCorrect(msg.body, ChunkSize(fs, msg.body));
  }

  lemma {:induction false} AbandonStep(ch: Chan, c: uint16, fs: nat, connClosed: bool, broken: bool, broken': bool, p: seq<Frame>)
    requires GoodFrameSize(fs) && ChanInv(ch, c, fs, connClosed, broken, p) && (broken ==> broken')
    requires ch.holder.Some? && (ch.holder.value.stage.Sending? ==> connClosed || broken')
    requires ch.holder.value.stage.Sending? ==> ch.holder.value.stage.sent < |FramesOf(c, ch.holder.value.msg, fs)|
    ensures ChanInv(Abandon(ch), c, fs, connClosed, broken', p)
  {
  }

  /** An event that writes nothing. */
  lemma {:induction false} QuietStep(ch: Chan, c: uint16, e: Event, fs: nat, connClosed: bool, broken: bool, p: seq<Frame>)
    requires GoodFrameSize(fs) && ChanInv(ch, c, fs, connClosed, broken, p)
    requires ChanStep(ch, c, e, fs, connClosed, broken).2 == []
    ensures var (ch', broken', _) := ChanStep(ch, c, e, fs, connClosed, broken);
            ChanInv(ch', c, fs, connClosed, broken', p)
  {
    var (ch', broken', _) := ChanStep(ch, c, e, fs, connClosed, broken);
    if ch.holder.Some? && ch' == Abandon(ch) && !e.Release? {
      AbandonStep(ch, c, fs, connClosed, broken, broken', p);
    } else if e.Acquire? || e.Release? || e.MarkClosed? {
      LockStep(ch, c, e, fs, connClosed, broken, p);
    } else {
      CheckStep(ch, c, e, fs, connClosed, broken, p);
    }
  }

  lemma {:induction false} LockStep(ch: Chan, c: uint16, e: Event, fs: nat, connClosed: bool, broken: bool, p: seq<Frame>)
    requires GoodFrameSize(fs) && ChanInv(ch, c, fs, connClosed, broken, p)
    requires e.Acquire? || e.Release? || e.MarkClosed?
    ensures ChanInv(ChanStep(ch, c, e, fs, connClosed, broken).0, c, fs, connClosed, broken, p)
  {
  }

  /** The holder passes a check. */
  lemma {:induction false} PassCheck(ch: Chan, c: uint16, fs: nat, connClosed: bool, broken: bool, stage: Stage, p: seq<Frame>)
    requires GoodFrameSize(fs) && ChanInv(ch, c, fs, connClosed, broken, p) && ch.holder.Some?
    requires var h := ch.holder.value;
             || (h.stage.Locked? && stage == Sending(0, false) && (ch.closed ==> IsCloseOk(h.msg)))
             || (h.stage.Sending? && !connClosed && stage == Sending(h.stage.sent, true)
                 && h.stage.sent < |FramesOf(c, h.msg, fs)|)
    ensures ChanInv(ch.(holder := Some(ch.holder.value.(stage := stage))), c, fs, connClosed, broken, p)
  {
    var ch' := ch.(holder := Some(ch.holder.value.(stage := stage)));
    assert FramesOf(c, ch.holder.value.msg, fs)[..0] == [];
    assert Tail(ch', c, fs) == Tail(ch, c, fs);
  }

  lemma {:induction false} CheckStep(ch: Chan, c: uint16, e: Event, fs: nat, connClosed: bool, broken: bool, p: seq<Frame>)
    requires GoodFrameSize(fs) && ChanInv(ch, c, fs, connClosed, broken, p)
    requires ChanStep(ch, c, e, fs, connClosed, broken).2 == []
    requires !e.Acquire? && !e.Release? && !e.MarkClosed?
    requires ch.holder.Some? ==> ChanStep(ch, c, e, fs, connClosed, broken).0 != Abandon(ch)
    ensures var (ch', broken', _) := ChanStep(ch, c, e, fs, connClosed, broken);
            ChanInv(ch', c, fs, connClosed, broken', p)
  {
    var (ch', broken', _) := ChanStep(ch, c, e, fs, connClosed, broken);
    if ch' != ch {
      PassCheck(ch, c, fs, connClosed, broken, ch'.holder.value.stage, p);
    }
  }

  /** The holder can write another frame. */
  ghost predicate HasMore(ch: Chan, c: uint16, fs: nat)
    requires GoodFrameSize(fs) && WellFormedChan(ch, c, fs)
  {
    && ch.holder.Some? && ch.holder.value.stage.Sending?
    && ch.holder.value.stage.sent < |FramesOf(c, ch.holder.value.msg, fs)|
  }

  /** What the reassembler makes of one more frame of the holder's message. */
  lemma {:induction false} NextFrame(ch: Chan, c: uint16, fs: nat, s: Recv)
    requires GoodFrameSize(fs) && WellFormedChan(ch, c, fs) && HasMore(ch, c, fs)
    requires PartWay(ch, c, fs) ==>
               var h := ch.holder.value;
               s == if h.torn then AwaitMethod else Mid(h.msg, BodyChunks(h.msg, fs), h.stage.sent)
    ensures var h := ch.holder.value;
            var frames, k := FramesOf(c, h.msg, fs), h.stage.sent;
            && !frames[k].HeartbeatFrame?
            && Step(s, frames[k]) == if h.torn then (AwaitMethod, [])
                                     else if k + 1 == |frames| then (AwaitMethod, [h.msg])
                                     else (Mid(h.msg, BodyChunks(h.msg, fs), k + 1), [])
  {
    var h := ch.holder.value;
    var frames, k := FramesOf(c, h.msg, fs), h.stage.sent;
    if h.msg.Content? {
      MessageChunks(h.msg, fs);
    }
    if h.torn {
      assert !frames[k].MethodFrame? && !frames[k].HeartbeatFrame?;
    } else {
      FrameStep(c, h.msg, BodyChunks(h.msg, fs), k, s);
    }
  }

  lemma {:induction false} WriteRead(ch: Chan, c: uint16, fs: nat, p: seq<Frame>)
    requires GoodFrameSize(fs) && WellFormedChan(ch, c, fs) && ReaderInv(ch, c, fs, p) && HasMore(ch, c, fs)
    ensures var h := ch.holder.value;
            var frames := FramesOf(c, h.msg, fs);
            ReaderInv(Advanced(ch, |frames|), c, fs, p + [frames[h.stage.sent]])
  {
    var h := ch.holder.value;
    var (s, out) := Feed(AwaitMethod, p);
    NextFrame(ch, c, fs, s);
    FeedSnoc(AwaitMethod, p, FramesOf(c, h.msg, fs)[h.stage.sent]);
    assert out + [] == out;
  }

  lemma {:induction false} WholeMessagesSnoc(c: uint16, log: seq<Msg>, msg: Msg, fs: nat)
    requires GoodFrameSize(fs) && WellFormedLog(log) && WellFormed(msg)
    ensures WellFormedLog(log + [msg])
    ensures WholeMessages(c, log + [msg], fs) == WholeMessages(c, log, fs) + FramesOf(c, msg, fs)
  {
    assert (log + [msg])[..|log|] == log;
  }

  lemma {:induction false} TailGrows(whole: seq<Frame>, frames: seq<Frame>, k: nat)
    requires k < |frames|
    ensures whole + frames[..k] + [frames[k]] == whole + frames[..k + 1]
    ensures k + 1 == |frames| ==> whole + frames[..k + 1] == whole + frames + []
  {
  }

  lemma {:induction false} WriteWire(ch: Chan, c: uint16, fs: nat, p: seq<Frame>)
    requires GoodFrameSize(fs) && WellFormedChan(ch, c, fs) && WellFormedLog(ch.log) && ch.stub.None?
    requires WireInv(ch, c, fs, p)
    requires ch.holder.Some? && ch.holder.value.stage.Sending?
    requires ch.holder.value.stage.sent < |FramesOf(c, ch.holder.value.msg, fs)|
    ensures var h := ch.holder.value;
            var frames := FramesOf(c, h.msg, fs);
            var ch' := Advanced(ch, |frames|);
            WellFormedChan(ch', c, fs) && WellFormedLog(ch'.log) && WireInv(ch', c, fs, p + [frames[h.stage.sent]])
  {
    var h := ch.holder.value;
    var frames, k := FramesOf(c, h.msg, fs), h.stage.sent;
    WholeMessagesSnoc(c, ch.log, h.msg, fs);
    if ch.clean {
      TailGrows(WholeMessages(c, ch.log, fs), frames, k);
    }
  }

  lemma {:induction false} WriteStep(ch: Chan, c: uint16, fs: nat, connClosed: bool, p: seq<Frame>)
    requires GoodFrameSize(fs) && ChanInv(ch, c, fs, connClosed, false, p)
    requires ch.holder.Some? && ch.holder.value.stage.Sending? && ch.holder.value.stage.cleared
    ensures var (ch', broken', out) := ChanStep(ch, c, Write(c, true), fs, connClosed, false);
            ChanInv(ch', c, fs, connClosed, broken', p + out)
  {
    WriteRead(ch, c, fs, p);
    WriteWire(ch, c, fs, p);
  }

  lemma {:induction false} RpcRead(ch: Chan, c: uint16, m: Method, fs: nat, p: seq<Frame>)
    requires GoodFrameSize(fs) && WellFormedChan(ch, c, fs) && ReaderInv(ch, c, fs, p) && !HasContent(m)
    ensures WellFormedChan(RpcSent(ch, c, m, fs), c, fs)
    ensures ReaderInv(RpcSent(ch, c, m, fs), c, fs, p + [F.MethodFrame(c, m)])
  {
    FeedSnoc(AwaitMethod, p, F.MethodFrame(c, m));
  }

  lemma {:induction false} RpcWire(ch: Chan, c: uint16, m: Method, fs: nat, p: seq<Frame>)
    requires GoodFrameSize(fs) && WellFormedChan(ch, c, fs) && WellFormedLog(ch.log) && !HasContent(m)
    requires ch.stub.Some? ==> WellFormed(ch.stub.value.msg) && ch.stub.value.sent < |FramesOf(c, ch.stub.value.msg, fs)|
    requires WireInv(ch, c, fs, p)
    ensures var ch' := RpcSent(ch, c, m, fs);
            && WellFormedChan(ch', c, fs) && WellFormedLog(ch'.log)
            && WireInv(ch', c, fs, p + [F.MethodFrame(c, m)])
  {
    WholeMessagesSnoc(c, ch.log, Plain(m), fs);
    var ch' := RpcSent(ch, c, m, fs);
    if ch'.clean {
      var whole, f := WholeMessages(c, ch.log, fs), [F.MethodFrame(c, m)];
      assert Tail(ch, c, fs) == [] && Tail(ch', c, fs) == [];
      assert whole + [] + f == whole + f + [];
    }
  }

  lemma {:induction false} RpcStep(ch: Chan, c: uint16, m: Method, fs: nat, connClosed: bool, p: seq<Frame>)
    requires GoodFrameSize(fs) && ChanInv(ch, c, fs, connClosed, false, p) && !HasContent(m)
    ensures var (ch', broken', out) := ChanStep(ch, c, Rpc(c, m, true), fs, connClosed, false);
            ChanInv(ch', c, fs, connClosed, broken', p + out)
  {
    RpcRead(ch, c, m, fs, p);
    RpcWire(ch, c, m, fs, p);
  }

  lemma {:induction false} ChanInvStep(ch: Chan, c: uint16, e: Event, fs: nat, connClosed: bool, broken: bool, p: seq<Frame>)
    requires GoodFrameSize(fs) && ChanInv(ch, c, fs, connClosed, broken, p)
    requires !e.Connection0? && !e.CloseConn? && e.c == c
    ensures var (ch', broken', out) := ChanStep(ch, c, e, fs, connClosed, broken);
            ChanInv(ch', c, fs, connClosed, broken', p + out)
  {
    var (ch', broken', out) := ChanStep(ch, c, e, fs, connClosed, broken);
    if out == [] {
      QuietStep(ch, c, e, fs, connClosed, broken, p);
      assert p + out == p;
    } else if e.Write? {
      WriteStep(ch, c, fs, connClosed, p);
    } else {
      RpcStep(ch, c, e.m, fs, connClosed, p);
    }
  }

  // ----- every run -----

  ghost predicate SysInv(s: Sys, fs: nat)
    requires GoodFrameSize(fs)
  {
    && 0 !in s.chans && AllRoutable(s.wire)
    && forall c | c in s.chans :: ChanInv(s.chans[c], c, fs, s.connClosed, s.broken, Project(s.wire, c))
  }

  lemma {:induction false} ProjectOwn(wire: seq<Frame>, out: seq<Frame>, c: uint16)
    requires |out| <= 1 && forall i | 0 <= i < |out| :: out[i].channel == c
    ensures Project(wire + out, c) == Project(wire, c) + out
  {
    if out == [] {
      assert wire + out == wire && Project(wire, c) + out == Project(wire, c);
    } else {
      assert out == [out[0]];
      ProjectSnoc(wire, out[0], c);
    }
  }

  lemma {:induction false} ProjectOther(wire: seq<Frame>, out: seq<Frame>, c: uint16)
    requires |out| <= 1 && forall i | 0 <= i < |out| :: out[i].channel != c
    ensures Project(wire + out, c) == Project(wire, c)
  {
    if out == [] {
      assert wire + out == wire;
    } else {
      assert out == [out[0]];
      ProjectSnoc(wire, out[0], c);
      assert Project(wire, c) + [] == Project(wire, c);
    }
  }

  /** The channels that an event does not touch see no new frame. */
  lemma {:induction false} OthersKeep(s: Sys, fs: nat, d: uint16, out: seq<Frame>, connClosed: bool, broken: bool)
    requires GoodFrameSize(fs) && SysInv(s, fs) && d in s.chans && |out| <= 1
    requires forall i | 0 <= i < |out| :: out[i].channel != d
    requires (s.connClosed ==> connClosed) && (s.broken ==> broken)
    ensures ChanInv(s.chans[d], d, fs, connClosed, broken, Project(s.wire + out, d))
  {
    ProjectOther(s.wire, out, d);
    assert ChanInv(s.chans[d], d, fs, s.connClosed, s.broken, Project(s.wire, d));
  }

  lemma {:induction false} FramesChannel(c: uint16, msg: Msg, fs: nat, k: nat)
    requires GoodFrameSize(fs) && WellFormed(msg) && k < |FramesOf(c, msg, fs)|
    ensures FramesOf(c, msg, fs)[k].channel == c && !FramesOf(c, msg, fs)[k].HeartbeatFrame?
  {
  }

  /** What a channel event writes belongs to that channel. */
  lemma {:induction false} StepWrites(ch: Chan, c: uint16, e: Event, fs: nat, connClosed: bool, broken: bool)
    requires GoodFrameSize(fs) && WellFormedChan(ch, c, fs)
    ensures var (_, broken', out) := ChanStep(ch, c, e, fs, connClosed, broken);
            && |out| <= 1 && (broken ==> broken')
            && forall i | 0 <= i < |out| :: out[i].channel == c && !out[i].HeartbeatFrame?
  {
    if e.Write? && ch.holder.Some? && ch.holder.value.stage.Sending? && ch.holder.value.stage.cleared {
      FramesChannel(c, ch.holder.value.msg, fs, ch.holder.value.stage.sent);
    }
  }

  /** The channel of an event, after the event. */
  lemma {:induction false} OwnChannel(s: Sys, e: Event, fs: nat)
    requires GoodFrameSize(fs) && SysInv(s, fs)
    requires !e.Connection0? && !e.CloseConn? && e.c in s.chans
    ensures WellFormedChan(s.chans[e.c], e.c, fs)
    ensures var (ch, broken, out) := ChanStep(s.chans[e.c], e.c, e, fs, s.connClosed, s.broken);
            ChanInv(ch, e.c, fs, s.connClosed, broken, Project(s.wire + out, e.c))
  {
    var c, p := e.c, Project(s.wire, e.c);
    assert ChanInv(s.chans[c], c, fs, s.connClosed, s.broken, p);
    var out := ChanStep(s.chans[c], c, e, fs, s.connClosed, s.broken).2;
    ChanInvStep(s.chans[c], c, e, fs, s.connClosed, s.broken, p);
    StepWrites(s.chans[c], c, e, fs, s.connClosed, s.broken);
    ProjectOwn(s.wire, out, c);
  }

  lemma {:induction false} ChannelEvent(s: Sys, e: Event, fs: nat)
    requires GoodFrameSize(fs) && SysInv(s, fs) && WellFormedSys(s, fs)
    requires !e.Connection0? && !e.CloseConn? && e.c in s.chans
    ensures SysInv(Next(s, e, fs), fs)
  {
    var c := e.c;
    var (ch, broken, out) := ChanStep(s.chans[c], c, e, fs, s.connClosed, s.broken);
    StepWrites(s.chans[c], c, e, fs, s.connClosed, s.broken);
    OwnChannel(s, e, fs);
    forall d | d in s.chans && d != c
      ensures ChanInv(s.chans[d], d, fs, s.connClosed, broken, Project(s.wire + out, d))
    {
      OthersKeep(s, fs, d, out, s.connClosed, broken);
    }
    Reassemble(s, fs, c, ch, broken, out);
  }

  lemma {:induction false} Reassemble(s: Sys, fs: nat, c: uint16, ch: Chan, broken: bool, out: seq<Frame>)
    requires GoodFrameSize(fs) && 0 !in s.chans && c in s.chans && AllRoutable(s.wire)
    requires forall i | 0 <= i < |out| :: !out[i].HeartbeatFrame?
    requires ChanInv(ch, c, fs, s.connClosed, broken, Project(s.wire + out, c))
    requires forall d | d in s.chans && d != c ::
               ChanInv(s.chans[d], d, fs, s.connClosed, broken, Project(s.wire + out, d))
    ensures SysInv(s.(wire := s.wire + out, broken := broken, chans := s.chans[c := ch]), fs)
  {
  }

  lemma {:induction false} SysWellFormed(s: Sys, fs: nat)
    requires GoodFrameSize(fs) && SysInv(s, fs)
    ensures WellFormedSys(s, fs)
  {
    forall c | c in s.chans
      ensures WellFormedChan(s.chans[c], c, fs)
    {
      assert ChanInv(s.chans[c], c, fs, s.connClosed, s.broken, Project(s.wire, c));
    }
  }

  lemma {:induction false} NextKeeps(s: Sys, e: Event, fs: nat)
    requires GoodFrameSize(fs) && SysInv(s, fs)
    ensures WellFormedSys(s, fs) && SysInv(Next(s, e, fs), fs)
    ensures Next(s, e, fs).chans.Keys == s.chans.Keys
  {
    SysWellFormed(s, fs);
    var s' := Next(s, e, fs);
    match e
    case CloseConn =>
      forall d | d in s'.chans
        ensures ChanInv(s'.chans[d], d, fs, true, s'.broken, Project(s'.wire, d))
      {
        OthersKeep(s, fs, d, [], true, s.broken);
      }
    case Connection0(f, ok) =>
      if f.channel == 0 {
        forall d | d in s'.chans
          ensures ChanInv(s'.chans[d], d, fs, s'.connClosed, s'.broken, Project(s'.wire, d))
        {
          OthersKeep(s, fs, d, if ok && !s.broken then [f] else [], s.connClosed, s'.broken);
        }
      }
    case _ =>
      if e.c in s.chans {
        ChannelEvent(s, e, fs);
      }
  }

  /** A connection with the given open channels and nothing sent. */
  function Start(ids: set<uint16>): Sys {
    Sys([], false, false, map c | c in ids :: NEW_CHAN)
  }

  lemma {:induction false} StartInv(ids: set<uint16>, fs: nat)
    requires GoodFrameSize(fs) && 0 !in ids
    ensures SysInv(Start(ids), fs)
  {
    forall c | c in ids
      ensures ChanInv(NEW_CHAN, c, fs, false, false, Project([], c))
    {
    }
  }

  ghost function Run(ids: set<uint16>, es: seq<Event>, fs: nat): (s: Sys)
    requires GoodFrameSize(fs) && 0 !in ids
    ensures SysInv(s, fs) && s.chans.Keys == ids
  {
    StartInv(ids, fs);
    if es == [] then Start(ids) else
    var before := Run(ids, es[..|es| - 1], fs);
    NextKeeps(before, es[|es| - 1], fs);
    Next(before, es[|es| - 1], fs)
  }

  lemma {:induction false} RunSnoc(ids: set<uint16>, es: seq<Event>, e: Event, fs: nat)
    requires GoodFrameSize(fs) && 0 !in ids
    ensures WellFormedSys(Run(ids, es, fs), fs)
    ensures Run(ids, es + [e], fs) == Next(Run(ids, es, fs), e, fs)
  {
    NextKeeps(Run(ids, es, fs), e, fs);
    assert (es + [e])[..|es|] == es;
  }

  /** The receiving side: as many fresh channels. */
  function Listeners(ids: set<uint16>): Inbound {
    Inbound(map c | c in ids :: NEW_CHANNEL, map[], [])
  }

  /** In every interleaving of senders on any number of channels, demultiplexing and reassembling the
      wire dispatches on each channel exactly the messages sent on it that no RPC frame cut, in order, up
      to the first channel.close; the channel stays registered exactly if there is none. */
  lemma {:induction false} DispatchesWhatWasSent(ids: set<uint16>, es: seq<Event>, fs: nat, c: uint16)
    requires GoodFrameSize(fs) && 0 !in ids && c in ids
    ensures var s := Run(ids, es, fs);
            var r := DemuxAll(Listeners(ids), s.wire);
            && Known(r, c) && Seen(r, c).dispatched == UpTo(s.chans[c].kept, IsClose)
            && (c in r.open <==> !Any(s.chans[c].kept, IsClose))
  {
    var s := Run(ids, es, fs);
    var p := Project(s.wire, c);
    assert ChanInv(s.chans[c], c, fs, s.connClosed, s.broken, p);
    DemuxProjects(Listeners(ids), s.wire, c);
    FeedUpTo(AwaitMethod, p);
    var out := UpTo(s.chans[c].kept, IsClose);
    assert [] + out == out;
  }

  /** The frames of a channel are whole messages followed by at most one unfinished prefix of one. */
  lemma {:induction false} WholeMessagesOnTheWire(ids: set<uint16>, es: seq<Event>, fs: nat, c: uint16)
    returns (unfinished: Msg, sent: nat)
    requires GoodFrameSize(fs) && 0 !in ids && c in ids
    requires Run(ids, es, fs).chans[c].clean
    ensures var s := Run(ids, es, fs);
            && WellFormedLog(s.chans[c].log) && WellFormed(unfinished) && sent < |FramesOf(c, unfinished, fs)|
            && Project(s.wire, c) == WholeMessages(c, s.chans[c].log, fs) + FramesOf(c, unfinished, fs)[..sent]
  {
    var s := Run(ids, es, fs);
    var ch := s.chans[c];
    assert ChanInv(ch, c, fs, s.connClosed, s.broken, Project(s.wire, c));
    if ch.stub.Some? {
      return ch.stub.value.msg, ch.stub.value.sent;
    }
    if ch.holder.Some? && ch.holder.value.stage.Sending?
       && ch.holder.value.stage.sent < |FramesOf(c, ch.holder.value.msg, fs)| {
      return ch.holder.value.msg, ch.holder.value.stage.sent;
    }
    unfinished, sent := Plain(M.Method(0, 0, [])), 0;
    assert FramesOf(c, unfinished, fs)[..0] == [];
  }

  ghost predicate NoRpcOn(es: seq<Event>, c: uint16) {
    forall i | 0 <= i < |es| :: es[i].Rpc? ==> es[i].c != c
  }

  ghost predicate Untorn(ch: Chan) {
    ch.clean && ch.kept == ch.log && (ch.holder.Some? ==> !ch.holder.value.torn)
  }

  lemma {:induction false} UntornStep(ch: Chan, c: uint16, e: Event, fs: nat, connClosed: bool, broken: bool)
    requires GoodFrameSize(fs) && WellFormedChan(ch, c, fs) && Untorn(ch) && !e.Rpc?
    ensures Untorn(ChanStep(ch, c, e, fs, connClosed, broken).0)
  {
  }

  lemma {:induction false} UntornNext(s: Sys, e: Event, fs: nat, c: uint16)
    requires GoodFrameSize(fs) && WellFormedSys(s, fs) && c in s.chans && Untorn(s.chans[c])
    requires e.Rpc? ==> e.c != c
    ensures c in Next(s, e, fs).chans && Untorn(Next(s, e, fs).chans[c])
  {
    if !e.CloseConn? && !e.Connection0? && e.c == c {
      UntornStep(s.chans[c], c, e, fs, s.connClosed, s.broken);
    }
  }

  /** Without RPCs nothing is ever cut. */
  lemma {:induction false} NoRpcNoLoss(ids: set<uint16>, es: seq<Event>, fs: nat, c: uint16)
    requires GoodFrameSize(fs) && 0 !in ids && c in ids && NoRpcOn(es, c)
    ensures Untorn(Run(ids, es, fs).chans[c])
  {
    if es != [] {
      var n := |es|;
      NoRpcNoLoss(ids, es[..n - 1], fs, c);
      var before := Run(ids, es[..n - 1], fs);
      NextKeeps(before, es[n - 1], fs);
      UntornNext(before, es[n - 1], fs, c);
    }
  }

  lemma {:induction false} CloseOkWrite(ch: Chan, c: uint16, fs: nat, connClosed: bool, broken: bool, ok: bool)
    requires GoodFrameSize(fs) && WellFormedChan(ch, c, fs) && ch.holder.Some?
    requires CloseInv(ch) && StubInv(ch, c, fs, connClosed, broken)
    ensures var h := ch.holder.value;
            var out := ChanStep(ch, c, Write(c, ok), fs, connClosed, broken).2;
            && (ch.closeOk && !IsCloseOk(h.msg) ==> out == [])
            && (IsCloseOk(h.msg) && out != [] ==> ch.closed && !Unfinished(ch, c, fs))
  {
    if IsCloseOk(ch.holder.value.msg) {
      assert |FramesOf(c, ch.holder.value.msg, fs)| == 1;
    }
  }

  lemma {:induction false} CloseOkNext(s: Sys, fs: nat, c: uint16, ok: bool)
    requires GoodFrameSize(fs) && WellFormedSys(s, fs) && c in s.chans && s.chans[c].holder.Some?
    requires CloseInv(s.chans[c]) && StubInv(s.chans[c], c, fs, s.connClosed, s.broken)
    ensures var h := s.chans[c].holder.value;
            var s' := Next(s, Write(c, ok), fs);
            && (s.chans[c].closeOk && !IsCloseOk(h.msg) ==> s'.wire == s.wire)
            && (IsCloseOk(h.msg) && s'.wire != s.wire ==> s.chans[c].closed && !Unfinished(s.chans[c], c, fs))
  {
    NextOfChannel(s, Write(c, ok), fs);
    CloseOkWrite(s.chans[c], c, fs, s.connClosed, s.broken, ok);
    assert s.wire + [] == s.wire;
  }

  /** After a received channel.close has been answered, no Publish, Ack, Nack or Reject of that channel
      writes another frame; and the close-ok itself never lands behind an unfinished message. */
  lemma {:induction false} NothingAfterCloseOk(ids: set<uint16>, es: seq<Event>, fs: nat, c: uint16, ok: bool)
    requires GoodFrameSize(fs) && 0 !in ids && c in ids
    requires Run(ids, es, fs).chans[c].holder.Some?
    ensures var s := Run(ids, es, fs);
            var h := s.chans[c].holder.value;
            && WellFormedSys(s, fs) && WellFormed(h.msg)
            && (s.chans[c].closeOk && !IsCloseOk(h.msg) ==> Next(s, Write(c, ok), fs).wire == s.wire)
            && (IsCloseOk(h.msg) && Next(s, Write(c, ok), fs).wire != s.wire ==>
                  s.chans[c].closed && !Unfinished(s.chans[c], c, fs))
  {
    var s := Run(ids, es, fs);
    SysWellFormed(s, fs);
    assert ChanInv(s.chans[c], c, fs, s.connClosed, s.broken, Project(s.wire, c));
    CloseOkNext(s, fs, c, ok);
  }

  // ----- a closed connection -----

  /** How many frames the lock holder may still write once the connection is closed. */
  function Cleared(ch: Chan): nat {
    if ch.holder.Some? && ch.holder.value.stage.Sending? && ch.holder.value.stage.cleared then 1 else 0
  }

  lemma {:induction false} ClosedStep(ch: Chan, c: uint16, e: Event, fs: nat, broken: bool)
    requires GoodFrameSize(fs) && WellFormedChan(ch, c, fs) && !e.Rpc?
    ensures var (ch', _, out) := ChanStep(ch, c, e, fs, true, broken);
            |out| + Cleared(ch') <= Cleared(ch)
  {
  }

  lemma {:induction false} ClosedNext(s: Sys, e: Event, fs: nat, c: uint16)
    requires GoodFrameSize(fs) && WellFormedSys(s, fs) && c in s.chans && s.connClosed && (e.Rpc? ==> e.c != c)
    ensures var s' := Next(s, e, fs);
            && c in s'.chans && s'.connClosed
            && |Project(s'.wire, c)| + Cleared(s'.chans[c]) <= |Project(s.wire, c)| + Cleared(s.chans[c])
  {
    assert s.wire + [] == s.wire;
    if e.CloseConn? {
    } else if e.Connection0? {
      if e.f.channel == 0 {
        ProjectOther(s.wire, [e.f], c);
      }
    } else if e.c in s.chans {
      NextOfChannel(s, e, fs);
      StepWrites(s.chans[e.c], e.c, e, fs, s.connClosed, s.broken);
      var out := ChanStep(s.chans[e.c], e.c, e, fs, s.connClosed, s.broken).2;
      if e.c == c {
        ClosedStep(s.chans[c], c, e, fs, s.broken);
        ProjectOwn(s.wire, out, c);
      } else {
        ProjectOther(s.wire, out, c);
      }
    }
  }

  /** The frames of the channel so far, and one more if its lock holder has been cleared for it. */
  ghost function Budget(ids: set<uint16>, es: seq<Event>, fs: nat, c: uint16): nat
    requires GoodFrameSize(fs) && 0 !in ids && c in ids
  {
    |Project(Run(ids, es, fs).wire, c)| + Cleared(Run(ids, es, fs).chans[c])
  }

  lemma {:induction false} BudgetSnoc(ids: set<uint16>, es: seq<Event>, e: Event, fs: nat, c: uint16)
    requires GoodFrameSize(fs) && 0 !in ids && c in ids && Run(ids, es, fs).connClosed && (e.Rpc? ==> e.c != c)
    ensures Run(ids, es + [e], fs).connClosed && Budget(ids, es + [e], fs, c) <= Budget(ids, es, fs, c)
  {
    RunSnoc(ids, es, e, fs);
    ClosedNext(Run(ids, es, fs), e, fs, c);
  }

  lemma {:induction false} BudgetClose(ids: set<uint16>, es: seq<Event>, fs: nat, c: uint16)
    requires GoodFrameSize(fs) && 0 !in ids && c in ids
    ensures Run(ids, es + [CloseConn], fs).connClosed && Budget(ids, es + [CloseConn], fs, c) == Budget(ids, es, fs, c)
  {
    RunSnoc(ids, es, CloseConn, fs);
    CloseConnNext(Run(ids, es, fs), fs);
  }

  lemma {:induction false} CloseConnNext(s: Sys, fs: nat)
    requires GoodFrameSize(fs) && WellFormedSys(s, fs)
    ensures Next(s, CloseConn, fs) == s.(connClosed := true)
  {
  }

  lemma {:induction false} ClosedRun(ids: set<uint16>, closed: seq<Event>, es: seq<Event>, fs: nat, c: uint16)
    requires GoodFrameSize(fs) && 0 !in ids && c in ids && NoRpcOn(es, c) && Run(ids, closed, fs).connClosed
    ensures Run(ids, closed + es, fs).connClosed && Budget(ids, closed + es, fs, c) <= Budget(ids, closed, fs, c)
  {
    AppendLast(closed, es);
    if es != [] {
      var most := es[..|es| - 1];
      ClosedRun(ids, closed, most, fs, c);
      BudgetSnoc(ids, closed + most, es[|es| - 1], fs, c);
    }
  }

  lemma {:induction false} AppendLast(a: seq<Event>, b: seq<Event>)
    ensures a + b == if b == [] then a else a + b[..|b| - 1] + [b[|b| - 1]]
  {
  }

  /** Once the connection is closed, the holder of a channel's lock writes at most the one frame that it had
      been cleared for. */
  lemma {:induction false} ClosedStops(ids: set<uint16>, before: seq<Event>, es: seq<Event>, fs: nat, c: uint16)
    requires GoodFrameSize(fs) && 0 !in ids && c in ids && NoRpcOn(es, c)
    ensures |Project(Run(ids, before + [CloseConn] + es, fs).wire, c)|
            <= |Project(Run(ids, before, fs).wire, c)| + 1
  {
    BudgetClose(ids, before, fs, c);
    ClosedRun(ids, before + [CloseConn], es, fs, c);
    assert Budget(ids, before + [CloseConn] + es, fs, c) <= Budget(ids, before, fs, c);
  }

  // ----- close-ok on the wire -----

  /** A channel.close-ok, method 41 of class 20. */
  predicate IsCloseOkFrame(f: Frame) {
    f.MethodFrame? && f.m.classId == 20 && f.m.methodId == 41
  }

  /** What an event puts on the wire, and what it means for the close-ok. */
  lemma {:induction false} CloseOkOut(ch: Chan, c: uint16, e: Event, fs: nat, connClosed: bool, broken: bool)
    requires GoodFrameSize(fs) && WellFormedChan(ch, c, fs) && CloseInv(ch)
    ensures var (ch', _, out) := ChanStep(ch, c, e, fs, connClosed, broken);
            && |out| <= 1
            && (ch'.closeOk <==> ch.closeOk || (out != [] && e.Write? && IsCloseOkFrame(out[0])))
            && (out != [] && e.Write? && ch.closeOk ==> IsCloseOkFrame(out[0]))
            && (out != [] && !e.Write? ==> e.Rpc? && out[0] == F.MethodFrame(c, e.m))
  {
  }

  /** No Channel.call sends a close-ok. */
  ghost predicate NoCallCloses(es: seq<Event>, c: uint16) {
    forall k | 0 <= k < |es| :: es[k].Rpc? && es[k].c == c ==> !(es[k].m.classId == 20 && es[k].m.methodId == 41)
  }

  /** The method was sent by an RPC on the channel. */
  ghost predicate Called(es: seq<Event>, c: uint16, m: Method) {
    exists k :: 0 <= k < |es| && es[k].Rpc? && es[k].c == c && es[k].m == m
  }

  /** After a close-ok there are only further ones and RPC frames; one is there exactly if `closeOk` says so. */
  ghost predicate CloseOkEnds(p: seq<Frame>, es: seq<Event>, c: uint16, closeOk: bool) {
    && (closeOk <==> exists i :: 0 <= i < |p| && IsCloseOkFrame(p[i]))
    && forall i, j | 0 <= i < j < |p| && IsCloseOkFrame(p[i]) ::
         IsCloseOkFrame(p[j]) || (p[j].MethodFrame? && Called(es, c, p[j].m))
  }

  lemma {:induction false} CalledSnoc(es: seq<Event>, e: Event, c: uint16, m: Method)
    ensures Called(es, c, m) ==> Called(es + [e], c, m)
    ensures e.Rpc? && e.c == c && e.m == m ==> Called(es + [e], c, m)
  {
    if Called(es, c, m) {
      var k :| 0 <= k < |es| && es[k].Rpc? && es[k].c == c && es[k].m == m;
      assert (es + [e])[k] == es[k];
    }
    assert (es + [e])[|es|] == e;
  }

  lemma {:induction false} CloseOkSnoc(p: seq<Frame>, es: seq<Event>, e: Event, c: uint16, closeOk: bool, out: seq<Frame>, closeOk': bool)
    requires CloseOkEnds(p, es, c, closeOk) && |out| <= 1
    requires closeOk' <==> closeOk || (out != [] && e.Write? && IsCloseOkFrame(out[0]))
    requires out != [] && e.Write? && closeOk ==> IsCloseOkFrame(out[0])
    requires out != [] && !e.Write? ==> e.Rpc? && e.c == c && out[0] == F.MethodFrame(c, e.m) && !IsCloseOkFrame(out[0])
    ensures CloseOkEnds(p + out, es + [e], c, closeOk')
  {
    var p' := p + out;
    forall i, j | 0 <= i < j < |p'| && IsCloseOkFrame(p'[i])
      ensures IsCloseOkFrame(p'[j]) || (p'[j].MethodFrame? && Called(es + [e], c, p'[j].m))
    {
      assert p'[i] == p[i];
      if j < |p| {
        assert p'[j] == p[j];
      }
      if p'[j].MethodFrame? {
        CalledSnoc(es, e, c, p'[j].m);
      }
    }
    if closeOk {
      var i :| 0 <= i < |p| && IsCloseOkFrame(p[i]);
      assert p'[i] == p[i];
    }
    if closeOk' && !closeOk {
      assert p'[|p|] == out[0];
    }
    if i :| 0 <= i < |p'| && IsCloseOkFrame(p'[i]) {
      assert i < |p| ==> p'[i] == p[i];
    }
  }

  /** `out` is what event `e` adds to the frames of channel `c`, and this is what it means for the close-ok. */
  ghost predicate AddsFrames(s: Sys, e: Event, fs: nat, c: uint16, out: seq<Frame>)
    requires GoodFrameSize(fs) && WellFormedSys(s, fs) && c in s.chans
  {
    var s' := Next(s, e, fs);
    && c in s'.chans && Project(s'.wire, c) == Project(s.wire, c) + out && |out| <= 1
    && (s'.chans[c].closeOk <==> s.chans[c].closeOk || (out != [] && e.Write? && IsCloseOkFrame(out[0])))
    && (out != [] && e.Write? && s.chans[c].closeOk ==> IsCloseOkFrame(out[0]))
    && (out != [] && !e.Write? ==> e.Rpc? && e.c == c && out[0] == F.MethodFrame(c, e.m) && !IsCloseOkFrame(out[0]))
  }

  lemma {:induction false} OwnFrames(s: Sys, e: Event, fs: nat)
    requires GoodFrameSize(fs) && SysInv(s, fs) && WellFormedSys(s, fs)
    requires !e.CloseConn? && !e.Connection0? && e.c in s.chans
    requires e.Rpc? ==> !(e.m.classId == 20 && e.m.methodId == 41)
    ensures AddsFrames(s, e, fs, e.c, ChanStep(s.chans[e.c], e.c, e, fs, s.connClosed, s.broken).2)
  {
    var c := e.c;
    assert ChanInv(s.chans[c], c, fs, s.connClosed, s.broken, Project(s.wire, c));
    NextOfChannel(s, e, fs);
    StepWrites(s.chans[c], c, e, fs, s.connClosed, s.broken);
    CloseOkOut(s.chans[c], c, e, fs, s.connClosed, s.broken);
    ProjectOwn(s.wire, ChanStep(s.chans[c], c, e, fs, s.connClosed, s.broken).2, c);
  }

  lemma {:induction false} NoFrames(s: Sys, e: Event, fs: nat, c: uint16)
    requires GoodFrameSize(fs) && WellFormedSys(s, fs) && c in s.chans && c != 0
    requires e.CloseConn? || e.Connection0? || e.c != c
    ensures AddsFrames(s, e, fs, c, [])
  {
    assert Project(s.wire, c) + [] == Project(s.wire, c);
    if e.Connection0? {
      if e.f.channel == 0 {
        ProjectOther(s.wire, [e.f], c);
      }
    } else if !e.CloseConn? && e.c in s.chans {
      NextOfChannel(s, e, fs);
      StepWrites(s.chans[e.c], e.c, e, fs, s.connClosed, s.broken);
      ProjectOther(s.wire, ChanStep(s.chans[e.c], e.c, e, fs, s.connClosed, s.broken).2, c);
    }
  }

  lemma {:induction false} CloseOkEvent(s: Sys, e: Event, fs: nat, c: uint16)
    returns (out: seq<Frame>)
    requires GoodFrameSize(fs) && SysInv(s, fs) && WellFormedSys(s, fs) && c in s.chans
    requires e.Rpc? && e.c == c ==> !(e.m.classId == 20 && e.m.methodId == 41)
    ensures AddsFrames(s, e, fs, c, out)
  {
    if e.CloseConn? || e.Connection0? || e.c != c {
      NoFrames(s, e, fs, c);
      out := [];
    } else {
      OwnFrames(s, e, fs);
      out := ChanStep(s.chans[c], c, e, fs, s.connClosed, s.broken).2;
    }
  }

  lemma {:induction false} CloseOkRun(ids: set<uint16>, es: seq<Event>, fs: nat, c: uint16)
    requires GoodFrameSize(fs) && 0 !in ids && c in ids && NoCallCloses(es, c)
    ensures var s := Run(ids, es, fs);
            CloseOkEnds(Project(s.wire, c), es, c, s.chans[c].closeOk)
  {
    if es != [] {
      var before, e := es[..|es| - 1], es[|es| - 1];
      SplitLast(es);
      CloseOkRun(ids, before, fs, c);
      RunSnoc(ids, before, e, fs);
      var s := Run(ids, before, fs);
      var out := CloseOkEvent(s, e, fs, c);
      CloseOkSnoc(Project(s.wire, c), before, e, c, s.chans[c].closeOk, out, Next(s, e, fs).chans[c].closeOk);
    }
  }

  /** On the wire: once a channel.close-ok, method 41 of class 20, has been written on a channel, whatever
      follows on it is another one or the frame of an RPC. No Publish, Ack, Nack or Reject follows. */
  lemma {:induction false} CloseOkIsLast(ids: set<uint16>, es: seq<Event>, fs: nat, c: uint16, i: nat, j: nat)
    requires GoodFrameSize(fs) && 0 !in ids && c in ids && NoCallCloses(es, c)
    requires i < j < |Project(Run(ids, es, fs).wire, c)|
    requires var f := Project(Run(ids, es, fs).wire, c)[i];
             f.MethodFrame? && f.m.classId == 20 && f.m.methodId == 41
    ensures var f := Project(Run(ids, es, fs).wire, c)[j];
            f.MethodFrame? && ((f.m.classId == 20 && f.m.methodId == 41) || Called(es, c, f.m))
  {
    CloseOkRun(ids, es, fs, c);
  }
}
