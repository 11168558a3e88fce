/** The heartbeater: how long the connection can stay silent. Time is in nanoseconds; the ticker is ideal
    and sending takes no time. */
module Heartbeat {

  const SECOND: int := 1_000_000_000

  /** openTune: the heartbeater runs at half the negotiated interval. */
  function Interval(heartbeat: nat): int {
    heartbeat * SECOND / 2
  }

  /** `lastSent` is the heartbeater's own view; `lastFrame` when a frame was really last sent; `maxGap` the
      longest silence between two frames so far. */
  datatype State = State(now: int, nextTick: int, lastSent: int, lastFrame: int, maxGap: int)

  datatype Event =
    | Sent(at: int, noticed: bool) // ordinary traffic; the notification may find nobody listening
    | Tick                         // the next tick of the ticker

  function Start(interval: int): State {
    State(0, interval, 0, 0, 0)
  }

  function Frame(s: State, at: int): State {
    s.(now := at, lastFrame := at, maxGap := if at - s.lastFrame > s.maxGap then at - s.lastFrame else s.maxGap)
  }

  /** Traffic happens no later than the next tick, which happens on time. */
  predicate Enabled(s: State, e: Event) {
    e.Sent? ==> s.now <= e.at <= s.nextTick
  }

  function Step(s: State, e: Event, interval: int): State {
    match e
    case Sent(at, noticed) =>
      var s' := Frame(s, at);
      if noticed then s'.(lastSent := at) else s'
    case Tick =>
      var at := s.nextTick;
      // the heartbeat's own notification finds the heartbeater busy, so lastSent stays
      (if at - s.lastSent > interval - SECOND then Frame(s, at) else s.(now := at)).(nextTick := at + interval)
  }

  ghost predicate Schedule(s: State, es: seq<Event>, interval: int)
    decreases |es|
  {
    es == [] || (Enabled(s, es[0]) && Schedule(Step(s, es[0], interval), es[1..], interval))
  }

  ghost function Run(s: State, es: seq<Event>, interval: int): State
    requires Schedule(s, es, interval)
    decreases |es|
  {
    if es == [] then s else Run(Step(s, es[0], interval), es[1..], interval)
  }

  /** The longest silence that can occur. */
  function Bound(interval: int): int {
    if interval >= 2 * interval - SECOND then interval else 2 * interval - SECOND
  }

  /** Since one tick before the next, or shortly before that, a frame was sent. */
  ghost predicate Inv(s: State, interval: int) {
    && interval > 0
    && s.nextTick - interval <= s.now <= s.nextTick
    && s.lastSent <= s.lastFrame <= s.now
    && (s.lastFrame >= s.nextTick - interval || s.nextTick - interval - s.lastFrame <= interval - SECOND)
    && s.maxGap <= Bound(interval)
  }

  lemma {:induction false} StepKeeps(s: State, e: Event, interval: int)
    requires Inv(s, interval) && Enabled(s, e)
    ensures Inv(Step(s, e, interval), interval)
  {
  }

  lemma {:induction false} RunKeeps(s: State, es: seq<Event>, interval: int)
    requires Inv(s, interval) && Schedule(s, es, interval)
    ensures Inv(Run(s, es, interval), interval)
    decreases |es|
  {
    if es != [] {
      StepKeeps(s, es[0], interval);
      RunKeeps(Step(s, es[0], interval), es[1..], interval);
    }
  }

  /** For every pattern of traffic and of dropped notifications, no two consecutive frames are further
      apart than the bound, nor is the time since the last one, and that is less than the heartbeat. */
  lemma {:induction false} NeverSilentForLong(heartbeat: nat, es: seq<Event>)
    requires heartbeat > 0 && Schedule(Start(Interval(heartbeat)), es, Interval(heartbeat))
    ensures var interval := Interval(heartbeat);
            var s := Run(Start(interval), es, interval);
            // half the negotiated heartbeat, and the longest silence, in nanoseconds
            var half := heartbeat * 500_000_000;
            var bound := if half >= 2 * half - 1_000_000_000 then half else 2 * half - 1_000_000_000;
            && interval == half
            && s.maxGap <= bound && s.now - s.lastFrame <= bound
            && bound < heartbeat * 1_000_000_000
  {
    RunKeeps(Start(Interval(heartbeat)), es, Interval(heartbeat));
  }

  /** The bound is met: a frame just missed by one tick's allowance is followed by a heartbeat only at the
      tick after. */
  lemma {:induction false} BoundIsReached(interval: int)
    requires interval > 1_000_000_000
    ensures exists es :: Schedule(Start(interval), es, interval)
                         && Run(Start(interval), es, interval).maxGap == 2 * interval - 1_000_000_000
  {
    var es := [Sent(SECOND, true), Tick, Tick];
    var s0 := Start(interval);
    var s1 := Step(s0, es[0], interval);
    var s2 := Step(s1, Tick, interval);
    var s3 := Step(s2, Tick, interval);
    assert es[1..] == [Tick, Tick] && es[1..][1..] == [Tick] && es[1..][1..][1..] == [];
    assert Schedule(s3, [], interval) && Run(s3, [], interval) == s3;
    assert Schedule(s2, [Tick], interval) && Run(s2, [Tick], interval) == s3;
    assert Schedule(s1, [Tick, Tick], interval) && Run(s1, [Tick, Tick], interval) == s3;
    assert Schedule(s0, es, interval) && Run(s0, es, interval) == s3;
  }

  /** The times of the frames that a schedule sends: all traffic, and the ticks that find it idle. */
  ghost function FrameTimes(s: State, es: seq<Event>, interval: int): seq<int>
    decreases |es|
  {
    if es == [] then [] else
    var rest := FrameTimes(Step(s, es[0], interval), es[1..], interval);
    match es[0]
    case Sent(at, _) => [at] + rest
    case Tick => if s.nextTick - s.lastSent > interval - SECOND then [s.nextTick] + rest else rest
  }

  /** No silence between two frames of a schedule exceeds the bound. */
  lemma {:induction false} FrameGaps(s: State, es: seq<Event>, interval: int, i: nat)
    requires Inv(s, interval) && Schedule(s, es, interval) && 0 < i < |[s.lastFrame] + FrameTimes(s, es, interval)|
    ensures var frames := [s.lastFrame] + FrameTimes(s, es, interval);
            0 <= frames[i] - frames[i - 1] <= Bound(interval)
    decreases |es|
  {
    var s' := Step(s, es[0], interval);
    StepKeeps(s, es[0], interval);
    var frames, rest := FrameTimes(s, es, interval), FrameTimes(s', es[1..], interval);
    if frames == rest && s'.lastFrame == s.lastFrame {
      FrameGaps(s', es[1..], interval, i);
    } else {
      assert frames == [s'.lastFrame] + rest;
      if i > 1 {
        FrameGaps(s', es[1..], interval, i - 1);
      }
    }
  }

  /** The heartbeater's select loop on a given schedule of traffic and ticks: the times of all frames from
      its start on. */
  method Heartbeater(interval: int, es: seq<Event>) returns (frames: seq<int>)
    requires interval > 0 && Schedule(Start(interval), es, interval)
    ensures frames == [0] + FrameTimes(Start(interval), es, interval)
    ensures forall i | 0 < i < |frames| :: 0 <= frames[i] - frames[i - 1] <= Bound(interval)
  {
    var lastSent, nextTick := 0, interval;
    frames := [0];
    ghost var s := Start(interval);
    var k := 0;
    while k < |es|
      invariant 0 <= k <= |es| && Schedule(s, es[k..], interval)
      invariant lastSent == s.lastSent && nextTick == s.nextTick
      invariant frames + FrameTimes(s, es[k..], interval) == [0] + FrameTimes(Start(interval), es, interval)
    {
      assert es[k..][1..] == es[k + 1..];
      match es[k] {
        case Sent(at, noticed) =>
          frames := frames + [at];
          if noticed {
            lastSent := at;
          }
        case Tick =>
          if nextTick - lastSent > interval - SECOND {
            frames := frames + [nextTick];
          }
          nextTick := nextTick + interval;
      }
      s := Step(s, es[k], interval);
      k := k + 1;
    }
    assert es[k..] == [];
    forall i | 0 < i < |frames|
      ensures 0 <= frames[i] - frames[i - 1] <= Bound(interval)
    {
      FrameGaps(Start(interval), es, interval, i);
    }
  }
}
