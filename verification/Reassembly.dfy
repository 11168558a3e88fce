/** Content framing in both directions: a message as a run of frames, and the state machine that puts
    such runs back together. */
module Reassembly {
  import opened Bytes
  import opened Fields
  import opened Sequences
  import F = Frames
  import H = Headers
  import M = MethodFrames

  type Frame = F.Frame<FieldTable>
  type Method = M.Method<FieldTable>
  type Properties = H.Properties<FieldTable>

  /** basic.publish, basic.return, basic.deliver and basic.get-ok carry content. */
  predicate HasContent(m: Method) {
    m.classId == 60 && (m.methodId == 40 || m.methodId == 50 || m.methodId == 60 || m.methodId == 71)
  }

  datatype Msg = Plain(m: Method) | Content(m: Method, props: Properties, body: bytes)

  predicate WellFormed(msg: Msg) {
    && (msg.Content? <==> HasContent(msg.m))
    && (msg.Content? ==> |msg.body| < 0x1_0000_0000_0000_0000)
  }

  // ----- sending: sendOpen -----

  const FRAME_HEADER_SIZE: int := 8

  /** The largest body that fits in one frame; frame size zero means no limit. */
  function ChunkSize(frameSize: nat, body: bytes): int {
    if frameSize > 0 then frameSize - FRAME_HEADER_SIZE else |body|
  }

  function Chunks(body: bytes, size: int): (r: seq<bytes>)
    requires body == [] || size > 0
    decreases |body|
  {
    if body == [] then []
    else if |body| <= size then [body]
    else [body[..size]] + Chunks(body[size..], size)
  }

  /** Frame sizes under which the chunking loop makes progress. */
  predicate GoodFrameSize(frameSize: nat) {
    frameSize == 0 || frameSize > FRAME_HEADER_SIZE
  }

  function BodyFrames(ch: uint16, chunks: seq<bytes>): seq<Frame> {
    seq(|chunks|, i requires 0 <= i < |chunks| => F.BodyFrame(ch, chunks[i]))
  }

  /** A message as frames, its body cut into the given chunks. */
  function Framing(ch: uint16, msg: Msg, chunks: seq<bytes>): (r: seq<Frame>)
    requires WellFormed(msg)
    ensures |r| > 0
  {
    match msg
    case Plain(m) => [F.MethodFrame(ch, m)]
    case Content(m, props, body) =>
      [F.MethodFrame(ch, m), F.HeaderFrame(ch, m.classId, 0, |body|, props)] + BodyFrames(ch, chunks)
  }

  function BodyChunks(msg: Msg, frameSize: nat): seq<bytes>
    requires GoodFrameSize(frameSize)
  {
    if msg.Plain? then [] else Chunks(msg.body, ChunkSize(frameSize, msg.body))
  }

  /** The frames that sendOpen writes for a message. */
  function FramesOf(ch: uint16, msg: Msg, frameSize: nat): (r: seq<Frame>)
    requires WellFormed(msg) && GoodFrameSize(frameSize)
    ensures |r| > 0
  {
    Framing(ch, msg, BodyChunks(msg, frameSize))
  }

  /** A way to cut a body into frames that no reader can mistake for a shorter body. */
  ghost predicate Chunking(chunks: seq<bytes>, body: bytes) {
    && Flatten(chunks) == body
    && (chunks != [] ==> chunks[|chunks| - 1] != [])
  }

  /** Every byte of the body is sent once, in order, in non-empty chunks that keep to the size. */
  lemma {:induction false} ChunksCorrect(body: bytes, size: int)
    requires body == [] || size > 0
    ensures Chunking(Chunks(body, size), body)
    ensures forall i | 0 <= i < |Chunks(body, size)| :: 0 < |Chunks(body, size)[i]| <= size
    ensures forall i | 0 <= i < |Chunks(body, size)| - 1 :: |Chunks(body, size)[i]| == size
    decreases |body|
  {
    if body == [] {
    } else if |body| <= size {
      assert [body][1..] == [] && body + [] == body;
    } else {
      ChunksCorrect(body[size..], size);
      assert Chunks(body, size)[1..] == Chunks(body[size..], size);
      assert body == body[..size] + body[size..];
      assert body[size..] != [] && Chunks(body[size..], size) != [];
    }
  }

  /** The chunking loop of sendOpen. */
  method ChunkBody(ch: uint16, body: bytes, frameSize: nat) returns (frames: seq<Frame>)
    requires GoodFrameSize(frameSize)
    ensures frames == BodyFrames(ch, Chunks(body, ChunkSize(frameSize, body)))
  {
    var size := ChunkSize(frameSize, body);
    frames := [];
    ghost var chunks: seq<bytes> := [];
    var i, j := 0, size;
    while i < |body|
      invariant 0 <= i <= |body| && (i < |body| ==> j == i + size)
      invariant frames == BodyFrames(ch, chunks)
      invariant Chunks(body, size) == chunks + Chunks(body[i..], size)
    {
      if j > |body| {
        j := |body|;
      }
      assert body[i..][..j - i] == body[i..j] && body[i..][j - i..] == body[j..];
      if j == |body| {
        assert body[i..] == body[i..j] && Chunks(body[j..], size) == [];
      }
      assert Chunks(body[i..], size) == [body[i..j]] + Chunks(body[j..], size);
      frames := frames + [F.BodyFrame(ch, body[i..j])];
      chunks := chunks + [body[i..j]];
      i, j := j, j + size;
    }
    assert body[i..] == [];
  }

  /** The loop variables of sendOpen after `k` rounds; slicing with a negative bound panics. */
  datatype Loop = Running(i: int, j: int) | Panicked

  ghost function Rounds(len: nat, size: int, k: nat): Loop {
    if k == 0 then Running(0, size) else
    match Rounds(len, size, k - 1)
    case Panicked => Panicked
    case Running(i, j) =>
      if i >= len then Running(i, j) else
      var j' := if j > len then len else j;
      if j' < i then Panicked else Running(j', j' + size)
  }

  ghost predicate Finished(len: nat, size: int, k: nat) {
    Rounds(len, size, k).Running? && Rounds(len, size, k).i >= len
  }

  lemma {:induction false} RoundsProgress(len: nat, size: int, k: nat)
    requires size > 0
    ensures var r := Rounds(len, size, k);
            r.Running? && r.j == r.i + size && 0 <= r.i <= len && (r.i == len || r.i >= k)
  {
    if k > 0 {
      RoundsProgress(len, size, k - 1);
    }
  }

  lemma {:induction false} RoundsStuck(len: nat, size: int, k: nat)
    requires size <= 0 < len
    ensures var r := Rounds(len, size, k);
            r.Panicked? || (r.i == 0 && r.j == size)
  {
    if k > 0 {
      RoundsStuck(len, size, k - 1);
    }
  }

  /** The loop ends exactly when there is no body or the frame size is zero or above eight. */
  lemma {:induction false} ChunkingEnds(body: bytes, frameSize: nat)
    ensures (exists k: nat :: Finished(|body|, ChunkSize(frameSize, body), k))
            <==> body == [] || frameSize == 0 || frameSize > 8
  {
    var len, size := |body|, ChunkSize(frameSize, body);
    if len == 0 {
      assert Finished(len, size, 0);
    } else if size > 0 {
      RoundsProgress(len, size, len);
      assert Finished(len, size, len);
    } else {
      forall k: nat
        ensures !Finished(len, size, k)
      {
        RoundsStuck(len, size, k);
      }
    }
  }

  /** basic.publish, basic.return, basic.deliver and basic.get-ok, by their ids. */
  predicate ContentIds(classId: uint16, methodId: uint16) {
    classId == 60 && methodId in {40, 50, 60, 71}
  }

  /** What sendOpen writes for a message with content: a method frame, a header frame that declares the
      length of the body, and body frames that hold it. No body frame is longer on the wire than the frame
      size, and all but the last are exactly as long. */
  lemma {:induction false} FramesFit(spec: M.Spec, c: uint16, m: Method, props: Properties, body: bytes, frameSize: nat)
    requires ContentIds(m.classId, m.methodId) && |body| < 0x1_0000_0000_0000_0000
    requires frameSize == 0 || frameSize > 8
    ensures WellFormed(Content(m, props, body)) && GoodFrameSize(frameSize)
    ensures var frames := FramesOf(c, Content(m, props, body), frameSize);
            && |frames| >= 2 && frames[0] == F.MethodFrame(c, m) && frames[1] == F.HeaderFrame(c, 60, 0, |body|, props)
            && (forall i | 2 <= i < |frames| :: frames[i].BodyFrame? && frames[i].channel == c && frames[i].body != [])
            && Flatten(Bodies(frames[2..])) == body
            && (frameSize > 0 ==> forall i | 2 <= i < |frames| ::
                  |F.EncodeFrame(spec, F.BodyFrame(c, frames[i].body))| <= frameSize)
            && (frameSize > 0 ==> forall i | 2 <= i < |frames| - 1 ::
                  |F.EncodeFrame(spec, F.BodyFrame(c, frames[i].body))| == frameSize)
            && (frameSize == 0 ==> |frames| <= 3)
  {
    var msg := Content(m, props, body);
    var chunks, frames := BodyChunks(msg, frameSize), FramesOf(c, msg, frameSize);
    ChunksCorrect(body, ChunkSize(frameSize, body));
    assert forall i | 2 <= i < |frames| :: frames[i] == F.BodyFrame(c, chunks[i - 2]);
    assert Bodies(frames[2..]) == chunks;
  }

  function Bodies(fs: seq<Frame>): seq<bytes> {
    seq(|fs|, i requires 0 <= i < |fs| => if fs[i].BodyFrame? then fs[i].body else [])
  }

  // ----- receiving: recvMethod, recvHeader, recvContent -----

  datatype Recv =
    | AwaitMethod
    | AwaitHeader(m: Method)
    | AwaitBody(m: Method, size: uint64, props: Properties, body: bytes)

  function RecvMethod(m: Method): (Recv, seq<Msg>) {
    if HasContent(m) then (AwaitHeader(m), []) else (AwaitMethod, [Plain(m)])
  }

  /** One frame: the next state and what is dispatched. Heartbeats never reach a channel. */
  function Step(s: Recv, f: Frame): (Recv, seq<Msg>)
    requires !f.HeartbeatFrame?
  {
    match (s, f)
    case (_, MethodFrame(_, m)) => RecvMethod(m)
    case (AwaitHeader(m), HeaderFrame(_, _, _, size, props)) =>
      if size == 0 then (AwaitMethod, [Content(m, props, [])]) else (AwaitBody(m, size, props, []), [])
    case (AwaitBody(m, size, props, body), BodyFrame(_, more)) =>
      if |body + more| >= size then (AwaitMethod, [Content(m, props, body + more)])
      else (AwaitBody(m, size, props, body + more), [])
    case _ => (AwaitMethod, [])
  }

  predicate NoHeartbeats(fs: seq<Frame>) {
    forall i | 0 <= i < |fs| :: !fs[i].HeartbeatFrame?
  }

  function Feed(s: Recv, fs: seq<Frame>): (Recv, seq<Msg>)
    requires NoHeartbeats(fs)
  {
    if fs == [] then (s, []) else
    var (s1, o1) := Feed(s, fs[..|fs| - 1]);
    var (s2, o2) := Step(s1, fs[|fs| - 1]);
    (s2, o1 + o2)
  }

  lemma {:induction false} FeedSnoc(s: Recv, fs: seq<Frame>, f: Frame)
    requires NoHeartbeats(fs) && !f.HeartbeatFrame?
    ensures NoHeartbeats(fs + [f])
    ensures var (s1, o1) := Feed(s, fs);
            var (s2, o2) := Step(s1, f);
            Feed(s, fs + [f]) == (s2, o1 + o2)
  {
    assert (fs + [f])[..|fs|] == fs;
  }

  lemma {:induction false} FeedQuiet(s: Recv, fs: seq<Frame>, f: Frame)
    requires NoHeartbeats(fs) && !f.HeartbeatFrame? && Feed(s, fs).1 == []
    ensures NoHeartbeats(fs + [f])
    ensures Feed(s, fs + [f]) == Step(Feed(s, fs).0, f)
  {
    FeedSnoc(s, fs, f);
    var o := Step(Feed(s, fs).0, f).1;
    assert [] + o == o;
  }

  // ----- a whole message from any state -----

  /** The state after the first `k` frames of a message that has more than `k`. */
  ghost function Mid(msg: Msg, chunks: seq<bytes>, k: nat): Recv
    requires WellFormed(msg) && msg.Content? && 0 < k <= |chunks| + 1
  {
    if k == 1 then AwaitHeader(msg.m)
    else AwaitBody(msg.m, |msg.body|, msg.props, Flatten(chunks[..k - 2]))
  }

  lemma {:induction false} FlattenSplit(ss: seq<bytes>, i: nat)
    requires i <= |ss|
    ensures Flatten(ss) == Flatten(ss[..i]) + Flatten(ss[i..])
  {
    if i == 0 {
      assert ss[..0] == [] && ss[0..] == ss;
    } else {
      FlattenSplit(ss[1..], i - 1);
      assert ss[1..][..i - 1] == ss[..i][1..] && ss[1..][i - 1..] == ss[i..];
    }
  }

  /** All but the last chunk fall short of the declared size. */
  lemma {:induction false} ShortOfSize(chunks: seq<bytes>, body: bytes, i: nat)
    requires Chunking(chunks, body) && i < |chunks|
    ensures |Flatten(chunks[..i])| < |body|
    ensures Flatten(chunks[..i + 1]) == Flatten(chunks[..i]) + chunks[i]
  {
    var n := |chunks|;
    FlattenSplit(chunks, n - 1);
    FlattenSplit(chunks[..n - 1], i);
    assert chunks[..n - 1][..i] == chunks[..i];
    assert chunks[n - 1..] == [chunks[n - 1]] && chunks[n - 1..][1..] == [];
    FlattenAppend(chunks[..i], chunks[i]);
    assert chunks[..i] + [chunks[i]] == chunks[..i + 1];
  }

  lemma {:induction false} BodyStep(ch: uint16, msg: Msg, chunks: seq<bytes>, i: nat)
    requires WellFormed(msg) && msg.Content? && Chunking(chunks, msg.body) && i < |chunks|
    ensures Step(Mid(msg, chunks, i + 2), F.BodyFrame(ch, chunks[i]))
            == if i + 1 == |chunks| then (AwaitMethod, [msg]) else (Mid(msg, chunks, i + 3), [])
  {
    ShortOfSize(chunks, msg.body, i);
    if i + 1 < |chunks| {
      ShortOfSize(chunks, msg.body, i + 1);
    } else {
      assert chunks[..i + 1] == chunks;
    }
  }

  /** The next frame of a message takes the machine one step further into it, whatever came before the
      message; the last frame dispatches it. */
  lemma {:induction false} FrameStep(ch: uint16, msg: Msg, chunks: seq<bytes>, k: nat, s: Recv)
    requires WellFormed(msg) && (msg.Content? ==> Chunking(chunks, msg.body))
    requires k < |Framing(ch, msg, chunks)|
    requires k > 0 ==> s == Mid(msg, chunks, k)
    ensures var frames := Framing(ch, msg, chunks);
            && !frames[k].HeartbeatFrame?
            && Step(s, frames[k]) == if k + 1 == |frames| then (AwaitMethod, [msg]) else (Mid(msg, chunks, k + 1), [])
  {
    if msg.Content? {
      if k == 1 {
        if |msg.body| == 0 {
          EmptyBody(chunks);
        } else {
          assert chunks != [] && chunks[..0] == [];
        }
      } else if k >= 2 {
        BodyStep(ch, msg, chunks, k - 2);
      }
    }
  }

  lemma {:induction false} EmptyBody(chunks: seq<bytes>)
    requires Chunking(chunks, [])
    ensures chunks == []
  {
    if chunks != [] {
      ShortOfSize(chunks, [], |chunks| - 1);
    }
  }

  lemma {:induction false} PrefixFed(ch: uint16, msg: Msg, chunks: seq<bytes>, k: nat, s: Recv)
    requires WellFormed(msg) && (msg.Content? ==> Chunking(chunks, msg.body))
    requires 0 < k <= |Framing(ch, msg, chunks)|
    ensures var frames := Framing(ch, msg, chunks);
            && NoHeartbeats(frames)
            && Feed(s, frames[..k]) == if k == |frames| then (AwaitMethod, [msg]) else (Mid(msg, chunks, k), [])
  {
    var frames := Framing(ch, msg, chunks);
    assert NoHeartbeats(frames);
    PrefixSnoc(frames, k);
    if k == 1 {
      assert frames[..0] == [];
      FeedQuiet(s, [], frames[0]);
      FrameStep(ch, msg, chunks, 0, s);
    } else {
      PrefixFed(ch, msg, chunks, k - 1, s);
      FrameStep(ch, msg, chunks, k - 1, Mid(msg, chunks, k - 1));
      FeedQuiet(s, frames[..k - 1], frames[k - 1]);
    }
  }

  /** Self-synchronisation: whatever the state, the frames of one whole message dispatch exactly that
      message and leave the machine waiting for the next method. */
  lemma {:induction false} SelfSynchronising(ch: uint16, msg: Msg, chunks: seq<bytes>, s: Recv)
    requires WellFormed(msg) && (msg.Content? ==> Chunking(chunks, msg.body))
    ensures NoHeartbeats(Framing(ch, msg, chunks))
    ensures Feed(s, Framing(ch, msg, chunks)) == (AwaitMethod, [msg])
  {
    var frames := Framing(ch, msg, chunks);
    PrefixFed(ch, msg, chunks, |frames|, s);
    assert frames[..|frames|] == frames;
  }

  /** The same for each of the four methods with content, by their ids: from any state, the method frame, a
      header frame that declares the length of the body, and body frames that hold it dispatch the method
      with exactly those properties and that body. */
  lemma {:induction false} ContentArrives(ch: uint16, m: Method, classId: uint16, weight: uint16, props: Properties,
                                          body: bytes, chunks: seq<bytes>, s: Recv)
    requires m.classId == 60 && (m.methodId == 40 || m.methodId == 50 || m.methodId == 60 || m.methodId == 71)
    requires |body| < 0x1_0000_0000_0000_0000 && Chunking(chunks, body)
    ensures var frames := [F.MethodFrame(ch, m), F.HeaderFrame(ch, classId, weight, |body|, props)] + BodyFrames(ch, chunks);
            NoHeartbeats(frames) && Feed(s, frames) == (AwaitMethod, [Content(m, props, body)])
  {
    var msg := Content(m, props, body);
    var frames := [F.MethodFrame(ch, m), F.HeaderFrame(ch, classId, weight, |body|, props)] + BodyFrames(ch, chunks);
    var sent := Framing(ch, msg, chunks);
    SelfSynchronising(ch, msg, chunks, s);
    assert frames[..0] == sent[..0] == [];
    SameFeed(s, frames, sent, |frames|);
    assert frames[..|frames|] == frames && sent[..|sent|] == sent;
  }

  /** The receiver looks neither at the class nor at the weight in a header frame. */
  lemma {:induction false} SameFeed(s: Recv, fs: seq<Frame>, gs: seq<Frame>, n: nat)
    requires n <= |fs| == |gs| && NoHeartbeats(fs) && NoHeartbeats(gs)
    requires forall i | 0 <= i < |fs| ::
               fs[i] == gs[i] || (fs[i].HeaderFrame? && gs[i].HeaderFrame? && fs[i].size == gs[i].size && fs[i].props == gs[i].props)
    ensures Feed(s, fs[..n]) == Feed(s, gs[..n])
  {
    if n > 0 {
      SameFeed(s, fs, gs, n - 1);
      assert fs[..n][..n - 1] == fs[..n - 1] && gs[..n][..n - 1] == gs[..n - 1];
    }
  }

  /** Every other method is dispatched as soon as its frame arrives. */
  lemma {:induction false} OthersAtOnce(ch: uint16, m: Method, s: Recv)
    requires !(m.classId == 60 && (m.methodId == 40 || m.methodId == 50 || m.methodId == 60 || m.methodId == 71))
    ensures Step(s, F.MethodFrame(ch, m)) == (AwaitMethod, [Plain(m)])
  {
  }

  ghost predicate BodyRun(fs: seq<Frame>, chunks: seq<bytes>) {
    |fs| == |chunks| && forall i | 0 <= i < |fs| :: fs[i].BodyFrame? && fs[i].body == chunks[i]
  }

  /** While content is being collected, the buffer is the concatenation of the body frames since the
      header, the method came right before that, and the declared size has not been reached. */
  lemma {:induction false} BufferIsBodySoFar(fs: seq<Frame>) returns (start: nat, chunks: seq<bytes>)
    requires NoHeartbeats(fs) && Feed(AwaitMethod, fs).0.AwaitBody?
    ensures var s := Feed(AwaitMethod, fs).0;
            && start + 2 <= |fs|
            && fs[start].MethodFrame? && fs[start].m == s.m && HasContent(s.m)
            && fs[start + 1].HeaderFrame? && fs[start + 1].size == s.size && fs[start + 1].props == s.props
            && BodyRun(fs[start + 2..], chunks)
            && s.body == Flatten(chunks) && |s.body| < s.size
  {
    var n := |fs|;
    var before, f := Feed(AwaitMethod, fs[..n - 1]).0, fs[n - 1];
    assert Feed(AwaitMethod, fs).0 == Step(before, f).0;
    if before.AwaitHeader? {
      start, chunks := n - 2, [];
      HeaderAfterMethod(fs[..n - 1]);
    } else {
      assert before.AwaitBody? && f.BodyFrame?;
      var earlier;
      start, earlier := BufferIsBodySoFar(fs[..n - 1]);
      FlattenAppend(earlier, f.body);
      chunks := earlier + [f.body];
      assert fs[start + 2..] == fs[..n - 1][start + 2..] + [f];
    }
  }

  lemma {:induction false} HeaderAfterMethod(fs: seq<Frame>)
    requires NoHeartbeats(fs) && Feed(AwaitMethod, fs).0.AwaitHeader?
    ensures var s := Feed(AwaitMethod, fs).0;
            fs != [] && fs[|fs| - 1].MethodFrame? && fs[|fs| - 1].m == s.m && HasContent(s.m)
  {
  }
}
