/** Channel multiplexing on the receiving side: Connection.demux hands every frame to the reassembly
    machine of its channel. */
module Demux {
  import opened Bytes
  import opened Options
  import opened Sequences
  import opened Reassembly

  /** A channel as the reader sees it: reassembly state, what was dispatched, and the closed flag. */
  datatype ChanState = ChanState(recv: Recv, dispatched: seq<Msg>, closed: bool)

  const NEW_CHANNEL: ChanState := ChanState(AwaitMethod, [], false)

  predicate IsChannelClose(f: Frame) {
    f.MethodFrame? && f.m.classId == 20 && f.m.methodId == 40
  }

  /** A channel.close, dispatched. */
  predicate IsClose(msg: Msg) {
    msg.Plain? && msg.m.classId == 20 && msg.m.methodId == 40
  }

  /** recv: one step of reassembly. */
  function Advance(st: ChanState, f: Frame): ChanState
    requires !f.HeartbeatFrame?
  {
    var (recv, out) := Step(st.recv, f);
    ChanState(recv, st.dispatched + out, st.closed)
  }

  /** updateChannel followed by recv. */
  function Receive(st: ChanState, f: Frame): ChanState
    requires !f.HeartbeatFrame?
  {
    Advance(st.(closed := st.closed || IsChannelClose(f)), f)
  }

  /** What the reader sends on its own account about closing: the answer to a channel.close, or the
      connection.close that a method for a closed channel provokes. */
  datatype Answer = CloseOk(channel: uint16) | Refuse(channel: uint16)

  /** The registry as the reader sees it. `left` holds the last state of the channels that a channel.close
      took out of the registry. */
  datatype Inbound = Inbound(open: map<uint16, ChanState>, left: map<uint16, ChanState>, answers: seq<Answer>)

  /** Heartbeats travel on channel zero, as section 4.2.7 of AMQP 0-9-1 demands. */
  predicate Routable(f: Frame) {
    f.HeartbeatFrame? ==> f.channel == 0
  }

  /** dispatchClosed: a frame for a channel that is not registered. */
  function Unexpected(f: Frame): seq<Answer> {
    if IsChannelClose(f) then [CloseOk(f.channel)]
    else if f.MethodFrame? && !(f.m.classId == 20 && f.m.methodId == 41) then [Refuse(f.channel)]
    else []
  }

  /** demux and dispatchN. Dispatching a channel.close answers it and releases the channel before the next
      frame is read. */
  function DemuxFrame(r: Inbound, f: Frame): Inbound
    requires Routable(f)
  {
    var c := f.channel;
    if c == 0 then r
    else if c !in r.open then r.(answers := r.answers + Unexpected(f))
    else if IsChannelClose(f) then
      Inbound(r.open - {c}, r.left[c := Receive(r.open[c], f)], r.answers + [CloseOk(c)])
    else r.(open := r.open[c := Receive(r.open[c], f)])
  }

  predicate AllRoutable(wire: seq<Frame>) {
    forall i | 0 <= i < |wire| :: Routable(wire[i])
  }

  function DemuxAll(r: Inbound, wire: seq<Frame>): Inbound
    requires AllRoutable(wire)
  {
    if wire == [] then r
    else DemuxFrame(DemuxAll(r, wire[..|wire| - 1]), wire[|wire| - 1])
  }

  predicate Known(r: Inbound, c: uint16) {
    c in r.open || c in r.left
  }

  /** A channel now, or as it was when it left. */
  function Seen(r: Inbound, c: uint16): ChanState
    requires Known(r, c)
  {
    if c in r.open then r.open[c] else r.left[c]
  }

  /** The frames of one channel. */
  function Project(wire: seq<Frame>, c: uint16): (r: seq<Frame>)
    ensures forall i | 0 <= i < |r| :: r[i].channel == c && r[i] in wire
  {
    if wire == [] then []
    else
      var last := wire[|wire| - 1];
      Project(wire[..|wire| - 1], c) + if last.channel == c then [last] else []
  }

  lemma {:induction false} ProjectSnoc(wire: seq<Frame>, f: Frame, c: uint16)
    ensures Project(wire + [f], c) == Project(wire, c) + if f.channel == c then [f] else []
  {
    assert (wire + [f])[..|wire|] == wire;
  }

  /** A channel after some frames of its own: reassembled as in Feed, and closed by a channel.close. */
  function After(st: ChanState, fs: seq<Frame>): ChanState
    requires NoHeartbeats(fs)
  {
    var (recv, out) := Feed(st.recv, fs);
    ChanState(recv, st.dispatched + out, st.closed || Any(fs, IsChannelClose))
  }

  lemma {:induction false} AfterSnoc(st: ChanState, fs: seq<Frame>, f: Frame)
    requires NoHeartbeats(fs) && !f.HeartbeatFrame?
    ensures NoHeartbeats(fs + [f])
    ensures After(st, fs + [f]) == Receive(After(st, fs), f)
  {
    FeedSnoc(st.recv, fs, f);
    UpToSnoc(fs, f, IsChannelClose);
  }

  /** Demultiplexing: each registered channel sees exactly its own frames, in wire order, up to and
      including the first channel.close among them, which takes it out of the registry. */
  lemma {:induction false} DemuxProjects(r: Inbound, wire: seq<Frame>, c: uint16)
    requires AllRoutable(wire) && c != 0 && c in r.open
    ensures var r' := DemuxAll(r, wire);
            var p := Project(wire, c);
            && (c in r'.open <==> !Any(p, IsChannelClose)) && Known(r', c)
            && NoHeartbeats(UpTo(p, IsChannelClose))
            && Seen(r', c) == After(r.open[c], UpTo(p, IsChannelClose))
  {
    if wire != [] {
      var n := |wire|;
      var before, f := wire[..n - 1], wire[n - 1];
      DemuxProjects(r, before, c);
      var p := Project(before, c);
      if f.channel == c {
        UpToSnoc(p, f, IsChannelClose);
        UpToMeaning(p, IsChannelClose);
        if !Any(p, IsChannelClose) {
          AfterSnoc(r.open[c], p, f);
        }
      } else {
        assert p + [] == p;
      }
    }
  }

  /** Reassembling the frames up to the first channel.close dispatches what reassembling all of them
      dispatches, up to the first channel.close. */
  lemma {:induction false} FeedUpTo(s: Recv, fs: seq<Frame>)
    requires NoHeartbeats(fs)
    ensures NoHeartbeats(UpTo(fs, IsChannelClose))
    ensures Any(Feed(s, fs).1, IsClose) <==> Any(fs, IsChannelClose)
    ensures Feed(s, UpTo(fs, IsChannelClose)).1 == UpTo(Feed(s, fs).1, IsClose)
  {
    if fs != [] {
      var n := |fs|;
      var before, f := fs[..n - 1], fs[n - 1];
      SplitLast(fs);
      FeedUpTo(s, before);
      UpToSnoc(before, f, IsChannelClose);
      var (s1, o1) := Feed(s, before);
      StepCloses(s1, f);
      UpToOut(o1, Step(s1, f).1);
    }
  }

  /** A step dispatches a channel.close exactly if the frame is one. */
  lemma {:induction false} StepCloses(s: Recv, f: Frame)
    requires !f.HeartbeatFrame?
    ensures var out := Step(s, f).1;
            |out| <= 1 && (IsChannelClose(f) <==> out != [] && IsClose(out[0]))
  {
  }

  lemma {:induction false} UpToOut(out: seq<Msg>, more: seq<Msg>)
    requires |more| <= 1
    ensures Any(out + more, IsClose) <==> Any(out, IsClose) || (more != [] && IsClose(more[0]))
    ensures UpTo(out + more, IsClose) == if Any(out, IsClose) then UpTo(out, IsClose) else out + more
  {
    if more == [] {
      assert out + more == out;
      UpToMeaning(out, IsClose);
    } else {
      assert more == [more[0]];
      UpToSnoc(out, more[0], IsClose);
    }
  }

  /** Every channel.close is answered by one close-ok, whether its channel is registered or not. */
  lemma {:induction false} EveryCloseAnswered(r: Inbound, wire: seq<Frame>, c: uint16)
    requires AllRoutable(wire) && c != 0
    ensures Count(DemuxAll(r, wire).answers, a => a == CloseOk(c))
            == Count(r.answers, a => a == CloseOk(c)) + Count(Project(wire, c), IsChannelClose)
  {
    if wire != [] {
      var n := |wire|;
      var before, f := wire[..n - 1], wire[n - 1];
      EveryCloseAnswered(r, before, c);
      var r1 := DemuxAll(r, before);
      if f.channel == c {
        CountSnoc(Project(before, c), f, IsChannelClose);
      } else {
        assert Project(before, c) + [] == Project(before, c);
      }
      var more := if f.channel == 0 then [] else if f.channel in r1.open && !IsChannelClose(f) then [] else Unexpected(f);
      assert DemuxFrame(r1, f).answers == r1.answers + more;
      if more == [] {
        assert r1.answers + more == r1.answers;
      } else {
        assert more == [more[0]];
        CountSnoc(r1.answers, more[0], a => a == CloseOk(c));
      }
    }
  }

  /** What a frame does to the registry, by its ids: exactly a channel.close, method 40 of class 20, marks its
      channel closed, takes it out and is answered. No other channel is touched. */
  lemma {:induction false} RegisteredFrame(r: Inbound, f: Frame)
    requires Routable(f) && f.channel != 0 && f.channel in r.open
    ensures var r', c := DemuxFrame(r, f), f.channel;
            var close := f.MethodFrame? && f.m.classId == 20 && f.m.methodId == 40;
            && (c in r'.open <==> !close) && Known(r', c)
            && Seen(r', c).closed == (r.open[c].closed || close)
            && r'.answers == r.answers + (if close then [CloseOk(c)] else [])
            && r'.open - {c} == r.open - {c} && r'.left - {c} == r.left - {c}
  {
    assert r.answers + [] == r.answers;
  }

  /** A frame for a channel that is not registered is answered if it is a channel.close, passed over if it is a
      close-ok or content, and otherwise refused. */
  lemma {:induction false} UnregisteredFrame(r: Inbound, f: Frame)
    requires Routable(f) && f.channel != 0 && f.channel !in r.open
    ensures DemuxFrame(r, f).open == r.open && DemuxFrame(r, f).left == r.left
    ensures DemuxFrame(r, f).answers == r.answers +
              if !f.MethodFrame? || (f.m.classId == 20 && f.m.methodId == 41) then []
              else if f.m.classId == 20 && f.m.methodId == 40 then [CloseOk(f.channel)]
              else [Refuse(f.channel)]
  {
  }

  // ----- the machine as it works: Channel.recv and Connection.dispatchN -----

  datatype RecvFunc = FnMethod | FnHeader | FnContent
  datatype Header = Header(size: uint64, props: Properties)

  /** The reassembly fields of Channel. Stale values stay behind in the fields that a state does not use. */
  class Channel {
    var recv: RecvFunc
    var message: Option<Method>
    var header: Option<Header>
    var body: bytes
    var dispatched: seq<Msg>
    var closed: bool

    ghost predicate Valid()
      reads this
    {
      && (recv != FnMethod ==> message.Some?)
      && (recv == FnHeader ==> body == [])
      && (recv == FnContent ==> header.Some?)
    }

    ghost function State(): ChanState
      reads this
      requires Valid()
    {
      var s := match recv
        case FnMethod => AwaitMethod
        case FnHeader => AwaitHeader(message.value)
        case FnContent => AwaitBody(message.value, header.value.size, header.value.props, body);
      ChanState(s, dispatched, closed)
    }

    constructor ()
      ensures Valid() && State() == NEW_CHANNEL
    {
      recv, message, header, body, dispatched, closed := FnMethod, None, None, [], [], false;
    }

    method Dispatch(msg: Msg)
      modifies this`dispatched
      ensures dispatched == old(dispatched) + [msg]
    {
      dispatched := dispatched + [msg];
    }

    method RecvMethod(f: Frame)
      requires Valid() && !f.HeartbeatFrame? && (recv == FnMethod || f.MethodFrame?)
      modifies this
      ensures Valid() && State() == Advance(old(State()), f)
    {
      match f
      case MethodFrame(_, m) =>
        if HasContent(m) {
          body := [];
          message := Some(m);
          recv := FnHeader;
        } else {
          Dispatch(Plain(m));
          recv := FnMethod;
        }
      case HeaderFrame(_, _, _, _, _) =>
        recv := FnMethod;
      case BodyFrame(_, _) =>
        recv := FnMethod;
      case HeartbeatFrame(_) =>
        assert false;
    }

    method RecvHeader(f: Frame)
      requires Valid() && !f.HeartbeatFrame? && recv == FnHeader
      modifies this
      ensures Valid() && State() == Advance(old(State()), f)
    {
      match f
      case MethodFrame(_, _) =>
        RecvMethod(f);
      case HeaderFrame(_, _, _, size, props) =>
        header := Some(Header(size, props));
        if size == 0 {
          Dispatch(Content(message.value, props, body));
          recv := FnMethod;
        } else {
          recv := FnContent;
        }
      case BodyFrame(_, _) =>
        recv := FnMethod;
      case HeartbeatFrame(_) =>
        assert false;
    }

    method RecvContent(f: Frame)
      requires Valid() && !f.HeartbeatFrame? && recv == FnContent
      modifies this
      ensures Valid() && State() == Advance(old(State()), f)
    {
      match f
      case MethodFrame(_, _) =>
        RecvMethod(f);
      case BodyFrame(_, more) =>
        body := body + more;
        if |body| >= header.value.size {
          Dispatch(Content(message.value, header.value.props, body));
          recv := FnMethod;
        }
      case HeaderFrame(_, _, _, _, _) =>
        recv := FnMethod;
      case HeartbeatFrame(_) =>
        assert false;
    }

    method Handle(f: Frame)
      requires Valid() && !f.HeartbeatFrame?
      modifies this
      ensures Valid() && State() == Receive(old(State()), f)
    {
      if IsChannelClose(f) {
        closed := true;
      }
      match recv
      case FnMethod => RecvMethod(f);
      case FnHeader => RecvHeader(f);
      case FnContent => RecvContent(f);
    }
  }

  /** The registry of open channels, as dispatchN uses it. */
  class Connection {
    var channels: map<uint16, Channel>
    var answers: seq<Answer>
    ghost var left: map<uint16, ChanState>

    ghost predicate Valid()
      reads this, channels.Values
    {
      && (forall c | c in channels :: channels[c].Valid())
      && (forall c, d | c in channels && d in channels && c != d :: channels[c] != channels[d])
    }

    ghost function States(): map<uint16, ChanState>
      reads this, channels.Values
      requires Valid()
    {
      map c | c in channels :: channels[c].State()
    }

    ghost function View(): Inbound
      reads this, channels.Values
      requires Valid()
    {
      Inbound(States(), left, answers)
    }

    constructor ()
      ensures Valid() && View() == Inbound(map[], map[], [])
    {
      channels, answers, left := map[], [], map[];
    }

    /** A new channel under a free id. */
    method Register(c: uint16)
      requires Valid() && c !in channels
      modifies this`channels
      ensures Valid() && View() == old(View()).(open := old(States())[c := NEW_CHANNEL])
    {
      var channel := new Channel();
      channels := channels[c := channel];
    }

    /** What dispatching a channel.close does to the registry, after the channel has handled it. */
    method CloseChannel(c: uint16)
      requires Valid() && c in channels
      modifies this
      ensures Valid() && channels == old(channels) - {c} && answers == old(answers) + [CloseOk(c)]
      ensures left == old(left)[c := old(channels[c].State())]
    {
      left := left[c := channels[c].State()];
      answers := answers + [CloseOk(c)];
      channels := channels - {c};
    }

    method DispatchClosed(f: Frame)
      modifies this`answers
      ensures answers == old(answers) + Unexpected(f)
    {
      match f
      case MethodFrame(c, m) =>
        if m.classId == 20 && m.methodId == 40 {
          answers := answers + [CloseOk(c)];
        } else if !(m.classId == 20 && m.methodId == 41) {
          answers := answers + [Refuse(c)];
        }
      case _ =>
    }

    /** A frame for a registered channel. */
    method DispatchN(f: Frame)
      requires Valid() && Routable(f) && f.channel != 0 && f.channel in channels
      modifies this, channels.Values
      ensures Valid() && View() == DemuxFrame(old(View()), f)
    {
      var channel := channels[f.channel];
      assert channel in channels.Values;
      channel.Handle(f);
      ghost var handled := States();
      assert handled == old(States())[f.channel := Receive(old(States())[f.channel], f)];
      if IsChannelClose(f) {
        CloseChannel(f.channel);
        assert States() == old(States()) - {f.channel};
      }
    }

    method Demux(f: Frame)
      requires Valid() && Routable(f)
      modifies this, channels.Values
      ensures Valid() && View() == DemuxFrame(old(View()), f)
    {
      if f.channel == 0 {
        return;
      }
      if f.channel in channels {
        DispatchN(f);
      } else {
        DispatchClosed(f);
        assert States() == old(States());
      }
    }
  }
}
