/** The delivery buffer of a consumer: an unbounded queue between two Go channels, run by a select loop. */
module Consumers {

  /** Outer is the range over the input, Inner the select loop that runs while the queue is not empty. */
  datatype Loop = Outer | Inner | Done(signalled: bool)

  /** `polling` is whether `inflight` still stands for the input (it is set to nil when the input is seen
      closed); `received` and `sent` are all that ever came in and went out. */
  datatype Buffer<T> = Buffer(loop: Loop, queue: seq<T>, polling: bool, inClosed: bool, signalled: bool,
                              received: seq<T>, sent: seq<T>)

  /** The first two happen outside; the others are the choices that the loop itself can make. */
  datatype Event<T> =
    | CloseInput
    | SignalClosed
    | Take(delivery: T)   // a delivery is received, by the range or by the select
    | SeeClosed           // the input is found closed, by the range or by the select
    | Emit                // out <- *queue[0]
    | Quit                // <-subs.closed

  predicate Enabled<T>(b: Buffer<T>, e: Event<T>) {
    match e
    case CloseInput => true
    case SignalClosed => true
    case Take(_) => !b.inClosed && (b.loop.Outer? || (b.loop.Inner? && b.polling))
    case SeeClosed => b.inClosed && (b.loop.Outer? || (b.loop.Inner? && b.polling))
    case Emit => b.loop.Inner? && b.queue != []
    case Quit => b.loop.Inner? && b.signalled
  }

  function Step<T>(b: Buffer<T>, e: Event<T>): Buffer<T>
    requires Enabled(b, e)
  {
    match e
    case CloseInput => b.(inClosed := true)
    case SignalClosed => b.(signalled := true)
    case Take(d) => b.(loop := Inner, queue := b.queue + [d], received := b.received + [d])
    case SeeClosed => if b.loop.Outer? then b.(loop := Done(false)) else b.(polling := false)
    case Emit =>
      b.(queue := b.queue[1..], sent := b.sent + [b.queue[0]], loop := if |b.queue| == 1 then Outer else Inner)
    case Quit => b.(loop := Done(true))
  }

  function Start<T>(): Buffer<T> {
    Buffer(Outer, [], true, false, false, [], [])
  }

  /** A schedule that the loop could follow. */
  ghost predicate Schedule<T>(b: Buffer<T>, es: seq<Event<T>>)
    decreases |es|
  {
    es == [] || (Enabled(b, es[0]) && Schedule(Step(b, es[0]), es[1..]))
  }

  ghost function Run<T>(b: Buffer<T>, es: seq<Event<T>>): Buffer<T>
    requires Schedule(b, es)
    decreases |es|
  {
    if es == [] then b else Run(Step(b, es[0]), es[1..])
  }

  ghost predicate Inv<T>(b: Buffer<T>) {
    && b.received == b.sent + b.queue
    && (b.loop.Inner? ==> b.queue != [])
    && (b.loop.Outer? || b.loop == Done(false) ==> b.queue == [])
  }

  lemma {:induction false} StepKeeps<T>(b: Buffer<T>, e: Event<T>)
    requires Inv(b) && Enabled(b, e)
    ensures Inv(Step(b, e))
  {
    if e.Emit? {
      assert b.queue == [b.queue[0]] + b.queue[1..];
    }
  }

  lemma {:induction false} RunKeeps<T>(b: Buffer<T>, es: seq<Event<T>>)
    requires Inv(b) && Schedule(b, es)
    ensures Inv(Run(b, es))
    decreases |es|
  {
    if es != [] {
      StepKeeps(b, es[0]);
      RunKeeps(Step(b, es[0]), es[1..]);
    }
  }

  /** Whatever the schedule, what went out is a prefix of what came in, and if the loop ended without the
      closed signal it is all of it. */
  lemma {:induction false} FirstInFirstOut<T>(es: seq<Event<T>>)
    requires Schedule(Start(), es)
    ensures var b := Run(Start(), es);
            && b.sent <= b.received
            && (b.loop.Done? && (forall i | 0 <= i < |es| :: !es[i].SignalClosed?) ==> b.sent == b.received)
  {
    RunKeeps(Start(), es);
    if forall i | 0 <= i < |es| :: !es[i].SignalClosed? {
      NoSignal(Start(), es);
    }
  }

  /** Only the signal ends the loop with deliveries in the queue. */
  lemma {:induction false} NoSignal<T>(b: Buffer<T>, es: seq<Event<T>>)
    requires Schedule(b, es) && !b.signalled && b.loop != Done(true)
    requires forall i | 0 <= i < |es| :: !es[i].SignalClosed?
    ensures Run(b, es).loop != Done(true)
    decreases |es|
  {
    if es != [] {
      NoSignal(Step(b, es[0]), es[1..]);
    }
  }

  /** How many more choices the loop can make once its input is closed. */
  function Remaining<T>(b: Buffer<T>): nat {
    match b.loop
    case Outer => 1
    case Inner => |b.queue| + (if b.polling then 1 else 0) + 1
    case Done(_) => 0
  }

  predicate LoopEvent<T>(e: Event<T>) {
    !e.CloseInput? && !e.SignalClosed?
  }

  /** The choices of the loop itself. */
  ghost predicate LoopOnly<T>(es: seq<Event<T>>) {
    forall i | 0 <= i < |es| :: LoopEvent(es[i])
  }

  /** The loop has a choice to make: it neither waits nor has ended. */
  ghost predicate CanGoOn<T(!new)>(b: Buffer<T>) {
    exists e :: LoopEvent(e) && Enabled(b, e)
  }

  /** After the input is closed every schedule is over within queue length plus two steps, and it cannot
      stop before the loop has ended: up to there the loop can always go on. */
  lemma {:induction false} ClosingIsBounded<T(!new)>(b: Buffer<T>, es: seq<Event<T>>)
    requires Inv(b) && b.inClosed && Schedule(b, es) && LoopOnly(es)
    ensures |es| <= Remaining(b) <= |b.queue| + 2
    ensures Run(b, es).loop.Done? <==> !CanGoOn(Run(b, es))
    decreases |es|
  {
    if es != [] {
      StepKeeps(b, es[0]);
      ClosingIsBounded(Step(b, es[0]), es[1..]);
    } else if b.loop.Outer? {
      var e: Event<T> := SeeClosed;
      assert LoopEvent(e) && Enabled(b, e);
    } else if b.loop.Inner? {
      var e: Event<T> := Emit;
      assert LoopEvent(e) && Enabled(b, e);
    }
  }

  // ----- what the events of a schedule say -----

  /** The deliveries that a schedule takes in, in order. */
  function Taken<T>(es: seq<Event<T>>): seq<T> {
    if es == [] then []
    else if es[0].Take? then [es[0].delivery] + Taken(es[1..])
    else Taken(es[1..])
  }

  function Emitted<T>(es: seq<Event<T>>): nat {
    if es == [] then 0 else (if es[0].Emit? then 1 else 0) + Emitted(es[1..])
  }

  lemma {:induction false} TakenIsReceived<T>(b: Buffer<T>, es: seq<Event<T>>)
    requires Schedule(b, es)
    ensures Run(b, es).received == b.received + Taken(es) && |Run(b, es).sent| == |b.sent| + Emitted(es)
    decreases |es|
  {
    if es != [] {
      TakenIsReceived(Step(b, es[0]), es[1..]);
    }
  }

  /** Nothing but the signal ends the loop with something left in the queue. */
  lemma {:induction false} SignalDrops<T>(b: Buffer<T>, es: seq<Event<T>>)
    requires Schedule(b, es) && b.loop != Done(true) && Run(b, es).loop == Done(true)
    ensures exists i :: 0 <= i < |es| && es[i].Quit?
    decreases |es|
  {
    assert es != [];
    if es[0].Quit? {
      assert es[0].Quit?;
    } else {
      SignalDrops(Step(b, es[0]), es[1..]);
      var i :| 0 <= i < |es[1..]| && es[1..][i].Quit?;
      assert es[i + 1].Quit?;
    }
  }

  // ----- consumers.buffer as it works -----

  /** The buffer `b` stands after the first `i` choices. */
  ghost predicate Reached<T>(b: Buffer<T>, choices: seq<Event<T>>, i: nat)
    requires Schedule(Start(), choices)
  {
    && i <= |choices| && Inv(b)
    && Schedule(b, choices[i..]) && Run(b, choices[i..]) == Run(Start(), choices)
  }

  lemma {:induction false} Choose<T>(b: Buffer<T>, choices: seq<Event<T>>, i: nat)
    requires Schedule(Start(), choices) && Reached(b, choices, i) && i < |choices|
    ensures Enabled(b, choices[i]) && Reached(Step(b, choices[i]), choices, i + 1)
  {
    assert choices[i..][1..] == choices[i + 1..];
    StepKeeps(b, choices[i]);
  }

  /** Passes over what happens outside, up to the next choice of the loop. */
  method Outside<T>(choices: seq<Event<T>>, i: nat, ghost b: Buffer<T>) returns (j: nat, ghost b': Buffer<T>)
    requires Schedule(Start(), choices) && Reached(b, choices, i)
    ensures i <= j && Reached(b', choices, j) && (j < |choices| ==> LoopEvent(choices[j]))
    ensures b' == b.(inClosed := b'.inClosed, signalled := b'.signalled)
  {
    j, b' := i, b;
    while j < |choices| && !LoopEvent(choices[j])
      invariant i <= j && Reached(b', choices, j)
      invariant b' == b.(inClosed := b'.inClosed, signalled := b'.signalled)
    {
      Choose(b', choices, j);
      b' := Step(b', choices[j]);
      j := j + 1;
    }
  }

  /** A loop that has ended makes no more choices. */
  lemma {:induction false} DoneStays<T>(b: Buffer<T>, es: seq<Event<T>>)
    requires Schedule(b, es) && b.loop.Done?
    ensures var r := Run(b, es);
            r.loop == b.loop && r.queue == b.queue && r.sent == b.sent
    decreases |es|
  {
    if es != [] {
      DoneStays(Step(b, es[0]), es[1..]);
    }
  }

  /** One round of the select: the signal, the input unless it was seen closed, or the output. */
  method Select<T>(choice: Event<T>, sent: seq<T>, queue: seq<T>, inflight: bool, ghost b: Buffer<T>)
    returns (sent': seq<T>, queue': seq<T>, inflight': bool, quit: bool)
    requires Enabled(b, choice) && LoopEvent(choice)
    requires b.loop.Inner? && b.queue == queue && b.sent == sent && b.polling == inflight && queue != []
    ensures var b' := Step(b, choice);
            && b'.queue == queue' && b'.sent == sent' && b'.polling == inflight'
            && b'.loop == if quit then Done(true) else if |queue'| > 0 then Inner else Outer
  {
    sent', queue', inflight', quit := sent, queue, inflight, false;
    match choice {
      case Quit =>
        quit := true;
      case Take(delivery) =>
        assert inflight;
        queue' := queue + [delivery];
      case SeeClosed =>
        assert inflight;
        inflight' := false;
      case Emit =>
        sent', queue' := sent + [queue[0]], queue[1..];
    }
  }

  /** consumers.buffer: a range over the input, and in it the select loop that runs while the queue is not
      empty. `choices` resolves the selects; where it stops the goroutine waits. What is sent out is the
      first of what was taken in, in order; the queue is the rest; and unless the signal came the loop
      ends with nothing in the queue. */
  method RunBuffer<T>(choices: seq<Event<T>>) returns (sent: seq<T>, queue: seq<T>, ended: bool)
    requires Schedule(Start(), choices)
    ensures sent + queue == Taken(choices) && |sent| == Emitted(choices)
    ensures ended && (forall i | 0 <= i < |choices| :: !choices[i].Quit?) ==> queue == []
    ensures ended <==> Run(Start(), choices).loop.Done?
  {
    ghost var b: Buffer<T> := Start();
    var inflight := true;
    var i := 0;
    sent, queue, ended := [], [], false;
    i, b := Outside(choices, i, b);
    while i < |choices| && choices[i].Take?
      invariant Reached(b, choices, i) && b.loop.Outer? && sent == b.sent && queue == b.queue && inflight == b.polling
      invariant i < |choices| ==> LoopEvent(choices[i])
      decreases |choices| - i
    {
      queue := queue + [choices[i].delivery];
      Choose(b, choices, i);
      b, i := Step(b, choices[i]), i + 1;
      ghost var start := i;
      while |queue| > 0
        invariant start <= i && Reached(b, choices, i)
        invariant sent == b.sent && queue == b.queue && inflight == b.polling
        invariant b.loop == if |queue| > 0 then Inner else Outer
        decreases |choices| - i
      {
        i, b := Outside(choices, i, b);
        if i == |choices| {
          Ending(b, choices, i);
          return;
        }
        Choose(b, choices, i);
        sent, queue, inflight, ended := Select(choices[i], sent, queue, inflight, b);
        b, i := Step(b, choices[i]), i + 1;
        if ended {
          Ending(b, choices, i);
          return;
        }
      }
      i, b := Outside(choices, i, b);
    }
    ended := i < |choices|;
    if ended {
      Choose(b, choices, i);
      b, i := Step(b, choices[i]), i + 1;
    }
    Ending(b, choices, i);
  }

  /** Where the choices are used up or the loop has ended, nothing more goes in or out. */
  lemma {:induction false} Ending<T>(b: Buffer<T>, choices: seq<Event<T>>, i: nat)
    requires Schedule(Start(), choices) && Reached(b, choices, i) && (i == |choices| || b.loop.Done?)
    ensures b.sent + b.queue == Taken(choices) && |b.sent| == Emitted(choices)
    ensures Run(Start(), choices).loop == b.loop
    ensures b.loop.Done? && (forall k | 0 <= k < |choices| :: !choices[k].Quit?) ==> b.queue == []
  {
    if b.loop.Done? {
      DoneStays(b, choices[i..]);
    }
    TakenIsReceived(Start(), choices);
    RunKeeps(Start(), choices);
    assert [] + Taken(choices) == Taken(choices);
    if b.loop == Done(true) {
      SignalDrops(Start(), choices);
    }
  }
}
