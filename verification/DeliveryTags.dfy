/** Delivery tags against the wire: publishing in confirm mode and the senders of a connection run side by
    side, and the tag of a publish is the place of its method frame among the publishes of its channel. */
module DeliveryTags {
  import opened Bytes
  import opened Options
  import opened Sequences
  import opened Reassembly
  import opened Demux
  import opened Multiplex
  import F = Frames
  import P = Publishing

  predicate IsPublish(msg: Msg) {
    msg.Content? && msg.m.classId == 60 && msg.m.methodId == 40
  }

  predicate IsPublishFrame(f: Frame) {
    f.MethodFrame? && f.m.classId == 60 && f.m.methodId == 40
  }

  /** The method of the last basic.publish among some frames. */
  function LastPublish(p: seq<Frame>): Option<Method> {
    if p == [] then None
    else if IsPublishFrame(p[|p| - 1]) then Some(p[|p| - 1].m)
    else LastPublish(p[..|p| - 1])
  }

  lemma {:induction false} LastSnoc(p: seq<Frame>, f: Frame)
    ensures LastPublish(p + [f]) == if IsPublishFrame(f) then Some(f.m) else LastPublish(p)
  {
    assert (p + [f])[..|p|] == p;
  }

  // ----- the sender: what matters of a channel -----

  /** The closed flag, the message and stage of the lock holder, and the abandoned message. */
  datatype Front = Front(closed: bool, msg: Option<Msg>, stage: Stage, stub: Option<Stub>)

  function FrontOf(ch: Chan): Front {
    match ch.holder
    case None => Front(ch.closed, None, Locked, ch.stub)
    case Some(h) => Front(ch.closed, Some(h.msg), h.stage, ch.stub)
  }

  predicate Publishes(f: Front) {
    f.msg.Some? && IsPublish(f.msg.value)
  }

  predicate Sends(f: Front) {
    f.msg.Some? && f.stage.Sending?
  }

  function Abandoned(f: Front): Front
    requires f.msg.Some?
  {
    f.(msg := None, stage := Locked,
       stub := if f.stage.Sending? && f.stage.sent > 0 then Some(Stub(f.msg.value, f.stage.sent)) else f.stub)
  }

  predicate Writes(f: Front, e: Event, broken: bool) {
    e.Write? && Sends(f) && f.stage.cleared && e.ok && !broken
  }

  predicate FailsToWrite(f: Front, e: Event, broken: bool) {
    e.Write? && Sends(f) && f.stage.cleared && !(e.ok && !broken)
  }

  /** The step of a channel on its front; `total` is the number of frames of the holder's message. */
  function FrontStep(f: Front, e: Event, total: nat, connClosed: bool, broken: bool): Front {
    if e.MarkClosed? then f.(closed := true)
    else if e.Acquire? then
      if f.msg.None? && WellFormed(e.msg) && (IsCloseOk(e.msg) ==> f.closed)
      then f.(msg := Some(e.msg), stage := Locked) else f
    else if f.msg.None? then f
    else if e.CheckOpen? && f.stage.Locked? then
      if f.closed && !IsCloseOk(f.msg.value) then Abandoned(f) else f.(stage := Sending(0, false))
    else if e.CheckConn? && f.stage.Sending? && f.stage.sent < total then
      if connClosed then Abandoned(f) else f.(stage := Sending(f.stage.sent, true))
    else if Writes(f, e, broken) then f.(stage := Sending(f.stage.sent + 1, false))
    else if FailsToWrite(f, e, broken) then Abandoned(f)
    else if e.Release? && f.stage.Sending? && f.stage.sent == total then f.(msg := None, stage := Locked)
    else f
  }

  ghost function Total(ch: Chan, c: uint16, fs: nat): nat
    requires GoodFrameSize(fs) && WellFormedChan(ch, c, fs)
  {
    if ch.holder.Some? then |FramesOf(c, ch.holder.value.msg, fs)| else 0
  }

  /** Event `e` puts the method frame of a publish on the wire. */
  predicate Begins(f: Front, e: Event, broken: bool) {
    Writes(f, e, broken) && f.stage.sent == 0 && Publishes(f)
  }

  /** Of the frames of a message only the first is a method frame. */
  lemma {:induction false} PublishFrames(c: uint16, msg: Msg, fs: nat, k: nat)
    requires GoodFrameSize(fs) && WellFormed(msg) && k < |FramesOf(c, msg, fs)|
    ensures IsPublishFrame(FramesOf(c, msg, fs)[k]) <==> k == 0 && IsPublish(msg)
    ensures k == 0 ==> FramesOf(c, msg, fs)[k] == F.MethodFrame(c, msg.m)
  {
  }

  /** The front after a step is the step of the front. */
  ghost predicate FrontAfter(ch: Chan, c: uint16, e: Event, fs: nat, connClosed: bool, broken: bool)
    requires GoodFrameSize(fs) && WellFormedChan(ch, c, fs)
  {
    var (ch', broken', _) := ChanStep(ch, c, e, fs, connClosed, broken);
    && FrontOf(ch') == FrontStep(FrontOf(ch), e, Total(ch, c, fs), connClosed, broken)
    && (broken || FailsToWrite(FrontOf(ch), e, broken) ==> broken')
  }

  lemma {:induction false} FrontWrite(ch: Chan, c: uint16, e: Event, fs: nat, connClosed: bool, broken: bool)
    requires GoodFrameSize(fs) && WellFormedChan(ch, c, fs) && e.Write?
    ensures FrontAfter(ch, c, e, fs, connClosed, broken)
  {
  }

  lemma {:induction false} FrontCheck(ch: Chan, c: uint16, e: Event, fs: nat, connClosed: bool, broken: bool)
    requires GoodFrameSize(fs) && WellFormedChan(ch, c, fs) && (e.CheckOpen? || e.CheckConn?)
    ensures FrontAfter(ch, c, e, fs, connClosed, broken)
  {
  }

  lemma {:induction false} FrontOther(ch: Chan, c: uint16, e: Event, fs: nat, connClosed: bool, broken: bool)
    requires GoodFrameSize(fs) && WellFormedChan(ch, c, fs) && !e.Write? && !e.CheckOpen? && !e.CheckConn?
    ensures FrontAfter(ch, c, e, fs, connClosed, broken)
  {
  }

  lemma {:induction false} FrontTells(ch: Chan, c: uint16, e: Event, fs: nat, connClosed: bool, broken: bool)
    requires GoodFrameSize(fs) && WellFormedChan(ch, c, fs)
    ensures FrontAfter(ch, c, e, fs, connClosed, broken)
  {
    if e.Write? {
      FrontWrite(ch, c, e, fs, connClosed, broken);
    } else if e.CheckOpen? || e.CheckConn? {
      FrontCheck(ch, c, e, fs, connClosed, broken);
    } else {
      FrontOther(ch, c, e, fs, connClosed, broken);
    }
  }

  lemma {:induction false} OutTells(ch: Chan, c: uint16, e: Event, fs: nat, connClosed: bool, broken: bool)
    requires GoodFrameSize(fs) && WellFormedChan(ch, c, fs)
    ensures var out := ChanStep(ch, c, e, fs, connClosed, broken).2;
            if Begins(FrontOf(ch), e, broken) then out == [F.MethodFrame(c, ch.holder.value.msg.m)]
            else |out| <= 1 && (out != [] ==> !IsPublishFrame(out[0]))
  {
    if Writes(FrontOf(ch), e, broken) {
      PublishFrames(c, ch.holder.value.msg, fs, ch.holder.value.stage.sent);
    }
  }

  // ----- the publisher: what matters of its state -----

  datatype Place = Free | Counted | Cleared | Succeeded | Elsewhere
  datatype View = View(place: Place, closed: bool, dead: bool, wire: nat)

  function ViewOf(s: P.State): View {
    var place := if s.holder.None? then Free else
      match s.holder.value.stage
      case Counted(_) => Counted
      case Cleared(_) => Cleared
      case Succeeded(_) => Succeeded
      case _ => Elsewhere;
    View(place, s.closed, s.dead, s.wire)
  }

  /** What an event of the channel is for the publisher that holds its lock. */
  datatype Move = Stay | Take | GiveUp | Pass | Fail | Sent | Return | Mark

  function Events(move: Move): seq<P.Event> {
    match move
    case Stay => []
    case Take => [P.Acquire, P.Count]
    case GiveUp => [P.CheckOpen, P.Finish]
    case Pass => [P.CheckOpen]
    case Fail => [P.Transmit(false), P.Finish]
    case Sent => [P.Transmit(true)]
    case Return => [P.Finish]
    case Mark => [P.MarkClosed]
  }

  function MoveOf(f: Front, e: Event, total: nat, connClosed: bool, broken: bool): Move {
    if e.MarkClosed? then Mark
    else if e.Acquire? then if f.msg.None? && WellFormed(e.msg) && IsPublish(e.msg) then Take else Stay
    else if !Publishes(f) then Stay
    else if e.CheckOpen? && f.stage.Locked? then if f.closed then GiveUp else Pass
    else if e.CheckConn? && f.stage.Sending? && f.stage.sent < total && connClosed then Fail
    else if Writes(f, e, broken) then if f.stage.sent + 1 == total then Sent else Stay
    else if FailsToWrite(f, e, broken) then Fail
    else if e.Release? && f.stage.Sending? && f.stage.sent == total then Return
    else Stay
  }

  predicate Ready(v: View, move: Move) {
    match move
    case Take => v.place == Free
    case GiveUp => v.place == Counted && v.closed
    case Pass => v.place == Counted && !v.closed
    case Fail => v.place == Cleared
    case Sent => v.place == Cleared && !v.dead
    case Return => v.place == Succeeded
    case _ => true
  }

  function Moved(v: View, move: Move): View {
    match move
    case Stay => v
    case Take => v.(place := Counted)
    case GiveUp => v.(place := Free)
    case Pass => v.(place := Cleared)
    case Fail => v.(place := Free, dead := true)
    case Sent => v.(place := Succeeded, wire := v.wire + 1)
    case Return => v.(place := Free)
    case Mark => v.(closed := true)
  }

  function Apply(s: P.State, es: seq<P.Event>): P.State
    decreases |es|
  {
    if es == [] then s else Apply(P.Step(s, es[0]), es[1..])
  }

  lemma {:induction false} ApplyOne(s: P.State, e: P.Event)
    ensures Apply(s, [e]) == P.Step(s, e)
  {
    assert [e][1..] == [];
  }

  lemma {:induction false} ApplyTwo(s: P.State, e: P.Event, e': P.Event)
    ensures Apply(s, [e, e']) == P.Step(P.Step(s, e), e')
  {
    assert [e, e'][1..] == [e'];
    ApplyOne(P.Step(s, e), e');
  }

  lemma {:induction false} RunAppend(es: seq<P.Event>, more: seq<P.Event>)
    ensures P.Run(true, es + more) == Apply(P.Run(true, es), more)
    decreases |more|
  {
    if more == [] {
      assert es + more == es;
    } else {
      assert (es + [more[0]])[..|es|] == es;
      assert es + more == es + [more[0]] + more[1..];
      RunAppend(es + [more[0]], more[1..]);
    }
  }

  /** The events of a move do to the publisher what the move says. */
  lemma {:induction false} MoveTells(s: P.State, move: Move)
    requires s.confirming && Ready(ViewOf(s), move)
    ensures Apply(s, Events(move)).confirming && ViewOf(Apply(s, Events(move))) == Moved(ViewOf(s), move)
  {
    match move
    case Stay =>
    case Take =>
      ApplyTwo(s, P.Acquire, P.Count);
    case GiveUp =>
      ApplyTwo(s, P.CheckOpen, P.Finish);
    case Pass =>
      ApplyOne(s, P.CheckOpen);
    case Fail =>
      ApplyTwo(s, P.Transmit(false), P.Finish);
    case Sent =>
      ApplyOne(s, P.Transmit(true));
    case Return =>
      ApplyOne(s, P.Finish);
    case Mark =>
      ApplyOne(s, P.MarkClosed);
  }

  /** Confirmations that come in from the server. */
  type Acks = seq<(set<nat>, bool)>

  function SettledBy(acks: Acks): seq<P.Event> {
    seq(|acks|, i requires 0 <= i < |acks| => P.Settled(acks[i].0, acks[i].1))
  }

  /** They do not matter here. */
  lemma {:induction false} AcksTell(s: P.State, acks: Acks)
    ensures var s' := Apply(s, SettledBy(acks));
            s'.confirming == s.confirming && ViewOf(s') == ViewOf(s)
    decreases |acks|
  {
    if acks != [] {
      assert SettledBy(acks)[1..] == SettledBy(acks[1..]);
      AcksTell(P.Step(s, P.Settled(acks[0].0, acks[0].1)), acks[1..]);
    }
  }

  // ----- what ties them together -----

  /** The publisher is where the lock holder is. */
  ghost predicate Abreast(f: Front, v: View, total: nat) {
    && v.closed == f.closed
    && v.place == (if !Publishes(f) then Free else if f.stage.Locked? then Counted
                   else if f.stage.sent == total then Succeeded else Cleared)
  }

  /** Nobody can write any more: the writer is broken, or the connection is closed and every holder of the
      lock has yet to find out. */
  ghost predicate Silenced(f: Front, connClosed: bool, broken: bool) {
    broken || (connClosed && (Sends(f) ==> !f.stage.cleared))
  }

  /** The publishes on the wire beyond those that the publisher counts as sent. */
  function Begun(f: Front, total: nat): nat {
    if f.stub.Some? then if IsPublish(f.stub.value.msg) then 1 else 0
    else if Publishes(f) && f.stage.Sending? && 0 < f.stage.sent < total then 1 else 0
  }

  /** `n` publishes are on the wire, the last of which is `last`. */
  ghost predicate Link(f: Front, v: View, total: nat, connClosed: bool, broken: bool, n: nat, last: Option<Method>) {
    && (f.msg.Some? ==> total > 0)
    && (Sends(f) ==> f.stage.sent <= total && (f.stage.cleared ==> f.stage.sent < total))
    && Abreast(f, v, total)
    && (v.dead ==> Silenced(f, connClosed, broken))
    && (f.stub.Some? ==> Silenced(f, connClosed, broken) && (Sends(f) ==> f.stage.sent == 0))
    && n == v.wire + Begun(f, total)
    && (Publishes(f) && f.stage.Sending? && f.stage.sent > 0 ==> last == Some(f.msg.value.m))
  }

  /** Event `e` meets the two sides in agreement; `total'` and `broken'` are what it makes of `total` and
      `broken`. */
  ghost predicate Meets(f: Front, v: View, total: nat, e: Event, connClosed: bool, broken: bool,
      n: nat, last: Option<Method>, total': nat, broken': bool)
  {
    && Link(f, v, total, connClosed, broken, n, last)
    && (broken || FailsToWrite(f, e, broken) ==> broken')
    && var f' := FrontStep(f, e, total, connClosed, broken);
       f'.msg.Some? ==> total' > 0 && (f.msg.Some? ==> total' == total)
  }

  /** It leaves them in agreement. */
  ghost predicate Linked(f: Front, v: View, total: nat, e: Event, connClosed: bool, broken: bool,
      n: nat, last: Option<Method>, total': nat, broken': bool)
  {
    var f', move := FrontStep(f, e, total, connClosed, broken), MoveOf(f, e, total, connClosed, broken);
    && Ready(v, move)
    && if Begins(f, e, broken)
       then Link(f', Moved(v, move), total', connClosed, broken', n + 1, Some(f.msg.value.m))
       else Link(f', Moved(v, move), total', connClosed, broken', n, last)
  }

  lemma {:induction false} LinkWrite(f: Front, v: View, total: nat, e: Event, connClosed: bool, broken: bool,
      n: nat, last: Option<Method>, total': nat, broken': bool)
    requires Meets(f, v, total, e, connClosed, broken, n, last, total', broken') && Writes(f, e, broken)
    ensures Linked(f, v, total, e, connClosed, broken, n, last, total', broken')
  {
  }

  /** An event that is not enabled. */
  lemma {:induction false} LinkSame(f: Front, v: View, total: nat, e: Event, connClosed: bool, broken: bool,
      n: nat, last: Option<Method>, total': nat, broken': bool)
    requires Meets(f, v, total, e, connClosed, broken, n, last, total', broken')
    requires FrontStep(f, e, total, connClosed, broken) == f && MoveOf(f, e, total, connClosed, broken).Stay?
    requires !Begins(f, e, broken)
    ensures Linked(f, v, total, e, connClosed, broken, n, last, total', broken')
  {
  }

  lemma {:induction false} LinkFail(f: Front, v: View, total: nat, e: Event, connClosed: bool, broken: bool,
      n: nat, last: Option<Method>, total': nat, broken': bool)
    requires Meets(f, v, total, e, connClosed, broken, n, last, total', broken') && FailsToWrite(f, e, broken)
    ensures Linked(f, v, total, e, connClosed, broken, n, last, total', broken')
  {
  }

  lemma {:induction false} LinkGiveUp(f: Front, v: View, total: nat, e: Event, connClosed: bool, broken: bool,
      n: nat, last: Option<Method>, total': nat, broken': bool)
    requires Meets(f, v, total, e, connClosed, broken, n, last, total', broken') && e.CheckOpen? && f.msg.Some? && f.stage.Locked? && f.closed
    ensures Linked(f, v, total, e, connClosed, broken, n, last, total', broken')
  {
  }

  lemma {:induction false} LinkOpen(f: Front, v: View, total: nat, e: Event, connClosed: bool, broken: bool,
      n: nat, last: Option<Method>, total': nat, broken': bool)
    requires Meets(f, v, total, e, connClosed, broken, n, last, total', broken') && e.CheckOpen? && f.msg.Some? && f.stage.Locked? && !f.closed
    ensures Linked(f, v, total, e, connClosed, broken, n, last, total', broken')
  {
  }

  lemma {:induction false} LinkConn(f: Front, v: View, total: nat, e: Event, connClosed: bool, broken: bool,
      n: nat, last: Option<Method>, total': nat, broken': bool)
    requires Meets(f, v, total, e, connClosed, broken, n, last, total', broken') && e.CheckConn?
    ensures Linked(f, v, total, e, connClosed, broken, n, last, total', broken')
  {
  }

  lemma {:induction false} LinkTake(f: Front, v: View, total: nat, e: Event, connClosed: bool, broken: bool,
      n: nat, last: Option<Method>, total': nat, broken': bool)
    requires Meets(f, v, total, e, connClosed, broken, n, last, total', broken') && e.Acquire?
    ensures Linked(f, v, total, e, connClosed, broken, n, last, total', broken')
  {
  }

  lemma {:induction false} LinkRelease(f: Front, v: View, total: nat, e: Event, connClosed: bool, broken: bool,
      n: nat, last: Option<Method>, total': nat, broken': bool)
    requires Meets(f, v, total, e, connClosed, broken, n, last, total', broken') && e.Release?
    ensures Linked(f, v, total, e, connClosed, broken, n, last, total', broken')
  {
  }

  lemma {:induction false} LinkOther(f: Front, v: View, total: nat, e: Event, connClosed: bool, broken: bool,
      n: nat, last: Option<Method>, total': nat, broken': bool)
    requires Meets(f, v, total, e, connClosed, broken, n, last, total', broken') && (e.Rpc? || e.MarkClosed?)
    ensures Linked(f, v, total, e, connClosed, broken, n, last, total', broken')
  {
  }

  lemma {:induction false} LinkStep(f: Front, v: View, total: nat, e: Event, connClosed: bool, broken: bool,
      n: nat, last: Option<Method>, total': nat, broken': bool)
    requires Meets(f, v, total, e, connClosed, broken, n, last, total', broken') && !e.CloseConn? && !e.Connection0?
    ensures Linked(f, v, total, e, connClosed, broken, n, last, total', broken')
  {
    if Writes(f, e, broken) {
      LinkWrite(f, v, total, e, connClosed, broken, n, last, total', broken');
    } else if FailsToWrite(f, e, broken) {
      LinkFail(f, v, total, e, connClosed, broken, n, last, total', broken');
    } else if e.CheckOpen? && f.msg.Some? && f.stage.Locked? {
      if f.closed {
        LinkGiveUp(f, v, total, e, connClosed, broken, n, last, total', broken');
      } else {
        LinkOpen(f, v, total, e, connClosed, broken, n, last, total', broken');
      }
    } else if e.CheckConn? {
      LinkConn(f, v, total, e, connClosed, broken, n, last, total', broken');
    } else if e.Acquire? {
      LinkTake(f, v, total, e, connClosed, broken, n, last, total', broken');
    } else if e.Release? {
      LinkRelease(f, v, total, e, connClosed, broken, n, last, total', broken');
    } else if e.Rpc? || e.MarkClosed? {
      LinkOther(f, v, total, e, connClosed, broken, n, last, total', broken');
    } else {
      LinkSame(f, v, total, e, connClosed, broken, n, last, total', broken');
    }
  }

  // ----- whole runs -----

  /** The two sides agree on channel `c` of `s`. */
  ghost predicate SysLink(s: Sys, fs: nat, c: uint16, ps: P.State)
    requires GoodFrameSize(fs) && WellFormedSys(s, fs) && c in s.chans
  {
    var p := Project(s.wire, c);
    && ps.confirming
    && Link(FrontOf(s.chans[c]), ViewOf(ps), Total(s.chans[c], c, fs), s.connClosed, s.broken,
            Count(p, IsPublishFrame), LastPublish(p))
  }

  ghost function MoveIn(s: Sys, e: Event, fs: nat, c: uint16): Move
    requires GoodFrameSize(fs) && WellFormedSys(s, fs) && c in s.chans
  {
    if e.CloseConn? || e.Connection0? || e.c != c then Stay
    else MoveOf(FrontOf(s.chans[c]), e, Total(s.chans[c], c, fs), s.connClosed, s.broken)
  }

  /** An event elsewhere. */
  lemma {:induction false} Monotone(f: Front, v: View, total: nat, connClosed: bool, broken: bool, n: nat, last: Option<Method>,
                                    connClosed': bool, broken': bool)
    requires Link(f, v, total, connClosed, broken, n, last) && (connClosed ==> connClosed') && (broken ==> broken')
    ensures Link(f, v, total, connClosed', broken', n, last)
  {
  }

  lemma {:induction false} ProjectPublishes(wire: seq<Frame>, out: seq<Frame>, c: uint16)
    requires |out| <= 1 && forall i | 0 <= i < |out| :: out[i].channel == c
    ensures var p, p' := Project(wire, c), Project(wire + out, c);
            if out != [] && IsPublishFrame(out[0])
            then Count(p', IsPublishFrame) == Count(p, IsPublishFrame) + 1 && LastPublish(p') == Some(out[0].m)
            else Count(p', IsPublishFrame) == Count(p, IsPublishFrame) && LastPublish(p') == LastPublish(p)
  {
    ProjectOwn(wire, out, c);
    if out == [] {
      assert Project(wire, c) + out == Project(wire, c);
    } else {
      assert out == [out[0]];
      CountSnoc(Project(wire, c), out[0], IsPublishFrame);
      LastSnoc(Project(wire, c), out[0]);
    }
  }

  lemma {:induction false} TotalKept(ch: Chan, ch': Chan, c: uint16, fs: nat)
    requires GoodFrameSize(fs) && WellFormedChan(ch, c, fs) && WellFormedChan(ch', c, fs)
    ensures ch'.holder.Some? ==> Total(ch', c, fs) > 0
    ensures ch.holder.Some? && ch'.holder.Some? && ch.holder.value.msg == ch'.holder.value.msg ==>
              Total(ch', c, fs) == Total(ch, c, fs)
  {
  }

  /** The holder's message does not change while it holds the lock. */
  lemma {:induction false} SameMessage(f: Front, e: Event, total: nat, connClosed: bool, broken: bool)
    requires f.msg.Some? && FrontStep(f, e, total, connClosed, broken).msg.Some?
    ensures FrontStep(f, e, total, connClosed, broken).msg == f.msg
  {
  }

  lemma {:induction false} ChannelLink(ch: Chan, v: View, c: uint16, e: Event, fs: nat, connClosed: bool, broken: bool,
                                       n: nat, last: Option<Method>)
    requires GoodFrameSize(fs) && WellFormedChan(ch, c, fs) && WellFormedChan(ChanStep(ch, c, e, fs, connClosed, broken).0, c, fs)
    requires Link(FrontOf(ch), v, Total(ch, c, fs), connClosed, broken, n, last) && !e.CloseConn? && !e.Connection0?
    ensures var (ch', broken', out) := ChanStep(ch, c, e, fs, connClosed, broken);
            var move := MoveOf(FrontOf(ch), e, Total(ch, c, fs), connClosed, broken);
            && Ready(v, move)
            && if out != [] && IsPublishFrame(out[0])
               then Link(FrontOf(ch'), Moved(v, move), Total(ch', c, fs), connClosed, broken', n + 1, Some(out[0].m))
               else Link(FrontOf(ch'), Moved(v, move), Total(ch', c, fs), connClosed, broken', n, last)
  {
    var (ch', broken', out) := ChanStep(ch, c, e, fs, connClosed, broken);
    var f, total := FrontOf(ch), Total(ch, c, fs);
    FrontTells(ch, c, e, fs, connClosed, broken);
    OutTells(ch, c, e, fs, connClosed, broken);
    TotalKept(ch, ch', c, fs);
    if f.msg.Some? && FrontOf(ch').msg.Some? {
      SameMessage(f, e, total, connClosed, broken);
    }
    LinkStep(f, v, total, e, connClosed, broken, n, last, Total(ch', c, fs), broken');
  }

  lemma {:induction false} OwnEvent(s: Sys, e: Event, fs: nat, c: uint16, ps: P.State)
    requires GoodFrameSize(fs) && WellFormedSys(s, fs) && c in s.chans && SysLink(s, fs, c, ps)
    requires !e.CloseConn? && !e.Connection0? && e.c == c
    requires WellFormedSys(Next(s, e, fs), fs) && c in Next(s, e, fs).chans
    ensures SysLink(Next(s, e, fs), fs, c, Apply(ps, Events(MoveIn(s, e, fs, c))))
  {
    var ch, p := s.chans[c], Project(s.wire, c);
    NextOfChannel(s, e, fs);
    StepWrites(ch, c, e, fs, s.connClosed, s.broken);
    ProjectPublishes(s.wire, ChanStep(ch, c, e, fs, s.connClosed, s.broken).2, c);
    ChannelLink(ch, ViewOf(ps), c, e, fs, s.connClosed, s.broken, Count(p, IsPublishFrame), LastPublish(p));
    MoveTells(ps, MoveIn(s, e, fs, c));
  }

  lemma {:induction false} OtherEvent(s: Sys, e: Event, fs: nat, c: uint16, ps: P.State)
    requires GoodFrameSize(fs) && WellFormedSys(s, fs) && c in s.chans && SysLink(s, fs, c, ps) && c != 0
    requires e.CloseConn? || e.Connection0? || e.c != c
    requires WellFormedSys(Next(s, e, fs), fs)
    ensures c in Next(s, e, fs).chans && SysLink(Next(s, e, fs), fs, c, ps)
  {
    var s' := Next(s, e, fs);
    var out := if e.CloseConn? then [] else if e.Connection0? then (if e.f.channel == 0 && e.ok && !s.broken then [e.f] else [])
               else if e.c in s.chans then ChanStep(s.chans[e.c], e.c, e, fs, s.connClosed, s.broken).2 else [];
    if !e.CloseConn? && !e.Connection0? && e.c in s.chans {
      StepWrites(s.chans[e.c], e.c, e, fs, s.connClosed, s.broken);
      NextOfChannel(s, e, fs);
    }
    assert s.wire + [] == s.wire;
    assert s'.wire == s.wire + out && s'.chans[c] == s.chans[c];
    ProjectOther(s.wire, out, c);
    var p := Project(s.wire, c);
    Monotone(FrontOf(s.chans[c]), ViewOf(ps), Total(s.chans[c], c, fs), s.connClosed, s.broken,
             Count(p, IsPublishFrame), LastPublish(p), s'.connClosed, s'.broken);
  }

  /** What a run of the senders is for the publishers on channel `c`, if `acks(k)` come in after event `k`. */
  ghost function PublisherEvents(ids: set<uint16>, es: seq<Event>, fs: nat, c: uint16, acks: nat -> Acks): seq<P.Event>
    requires GoodFrameSize(fs) && 0 !in ids && c in ids
  {
    if es == [] then []
    else
      var before := es[..|es| - 1];
      SysWellFormed(Run(ids, before, fs), fs);
      PublisherEvents(ids, before, fs, c, acks)
      + Events(MoveIn(Run(ids, before, fs), es[|es| - 1], fs, c))
      + SettledBy(acks(|es| - 1))
  }

  lemma {:induction false} LinkNext(s: Sys, e: Event, fs: nat, c: uint16, ps: P.State)
    requires GoodFrameSize(fs) && WellFormedSys(s, fs) && c in s.chans && SysLink(s, fs, c, ps) && c != 0
    requires WellFormedSys(Next(s, e, fs), fs)
    ensures c in Next(s, e, fs).chans && SysLink(Next(s, e, fs), fs, c, Apply(ps, Events(MoveIn(s, e, fs, c))))
  {
    if e.CloseConn? || e.Connection0? || e.c != c {
      OtherEvent(s, e, fs, c, ps);
    } else {
      NextOfChannel(s, e, fs);
      OwnEvent(s, e, fs, c, ps);
    }
  }

  lemma {:induction false} LinkStart(ids: set<uint16>, fs: nat, c: uint16)
    requires GoodFrameSize(fs) && 0 !in ids && c in ids
    ensures WellFormedSys(Start(ids), fs) && SysLink(Start(ids), fs, c, P.Start(true))
  {
  }

  lemma {:induction false} PublisherSnoc(ids: set<uint16>, es: seq<Event>, e: Event, fs: nat, c: uint16, acks: nat -> Acks)
    requires GoodFrameSize(fs) && 0 !in ids && c in ids && WellFormedSys(Run(ids, es, fs), fs)
    ensures PublisherEvents(ids, es + [e], fs, c, acks)
            == PublisherEvents(ids, es, fs, c, acks) + Events(MoveIn(Run(ids, es, fs), e, fs, c)) + SettledBy(acks(|es|))
  {
    assert (es + [e])[..|es|] == es;
  }

  lemma {:induction false} LinkSnoc(ids: set<uint16>, es: seq<Event>, e: Event, fs: nat, c: uint16, acks: nat -> Acks)
    requires GoodFrameSize(fs) && 0 !in ids && c in ids
    requires WellFormedSys(Run(ids, es, fs), fs) && WellFormedSys(Run(ids, es + [e], fs), fs)
    requires SysLink(Run(ids, es, fs), fs, c, P.Run(true, PublisherEvents(ids, es, fs, c, acks)))
    ensures SysLink(Run(ids, es + [e], fs), fs, c, P.Run(true, PublisherEvents(ids, es + [e], fs, c, acks)))
  {
    var s, pes := Run(ids, es, fs), PublisherEvents(ids, es, fs, c, acks);
    var move := Events(MoveIn(s, e, fs, c));
    RunSnoc(ids, es, e, fs);
    LinkNext(s, e, fs, c, P.Run(true, pes));
    PublisherSnoc(ids, es, e, fs, c, acks);
    RunAppend(pes, move);
    RunAppend(pes + move, SettledBy(acks(|es|)));
    AcksTell(P.Run(true, pes + move), acks(|es|));
  }

  lemma {:induction false} LinkRun(ids: set<uint16>, es: seq<Event>, fs: nat, c: uint16, acks: nat -> Acks)
    requires GoodFrameSize(fs) && 0 !in ids && c in ids
    ensures WellFormedSys(Run(ids, es, fs), fs)
    ensures SysLink(Run(ids, es, fs), fs, c, P.Run(true, PublisherEvents(ids, es, fs, c, acks)))
  {
    SysWellFormed(Run(ids, es, fs), fs);
    if es == [] {
      LinkStart(ids, fs, c);
    } else {
      var before, e := es[..|es| - 1], es[|es| - 1];
      SplitLast(es);
      LinkRun(ids, before, fs, c, acks);
      LinkSnoc(ids, before, e, fs, c, acks);
    }
  }

  /** The publish that holds the lock of channel `c` has been written. */
  ghost predicate Written(s: Sys, fs: nat, c: uint16)
    requires GoodFrameSize(fs) && c in s.chans
  {
    var f := FrontOf(s.chans[c]);
    Publishes(f) && WellFormed(f.msg.value) && f.stage.Sending? && f.stage.sent == |FramesOf(c, f.msg.value, fs)|
  }

  /** The tag that the publish in `ps` is about to return with. */
  ghost predicate Returns(ps: P.State, tag: nat) {
    && ps.holder.Some? && ps.holder.value.stage.Succeeded? && ps.holder.value.stage.handle.Some?
    && var h := ps.holder.value.stage.handle.value;
    h < |ps.d.handles| && ps.d.handles[h].tag == tag
  }

  lemma {:induction false} TagHere(s: Sys, fs: nat, c: uint16, ps: P.State)
    requires GoodFrameSize(fs) && WellFormedSys(s, fs) && c in s.chans && SysLink(s, fs, c, ps) && P.TagInv(ps)
    requires Written(s, fs, c)
    ensures Returns(ps, P.Wrapped(Count(Project(s.wire, c), IsPublishFrame)))
    ensures LastPublish(Project(s.wire, c)) == Some(FrontOf(s.chans[c]).msg.value.m)
  {
  }

  /** In every interleaving, and whatever confirmations come in, when a publish on a channel in confirm mode
      has been written, the tag in its handle is the number of basic.publish method frames on the channel so
      far, as far as a counter of 64 bits can tell, and the last of these is its own. */
  lemma {:induction false} TagOnWire(ids: set<uint16>, es: seq<Event>, fs: nat, c: uint16, acks: nat -> Acks)
    requires GoodFrameSize(fs) && 0 !in ids && c in ids
    requires Written(Run(ids, es, fs), fs, c)
    ensures var s, p := Run(ids, es, fs), Project(Run(ids, es, fs).wire, c);
            && Returns(P.Run(true, PublisherEvents(ids, es, fs, c, acks)), P.Wrapped(Count(p, IsPublishFrame)))
            && LastPublish(p) == Some(FrontOf(s.chans[c]).msg.value.m)
  {
    var pes := PublisherEvents(ids, es, fs, c, acks);
    LinkRun(ids, es, fs, c, acks);
    P.TagRun(pes);
    TagHere(Run(ids, es, fs), fs, c, P.Run(true, pes));
  }
}
