/** The Go channels that a Channel hands events to: listeners registered with the Notify functions and
    the input channels of consumers. They are closed once and never sent to afterwards, however
    registration, dispatch, cancellation and shutdown interleave. */
module Notify {

  datatype Kind = CloseKind | FlowKind | ReturnKind | CancelKind | ConfirmKind

  /** Channel.shutdown holds the notify lock throughout, but the consumers and the confirms have locks of
      their own: it closes first the consumers, then the listeners, then the confirm listeners. */
  datatype Shutting = Open | Begun | ConsumersClosed | ListenersClosed | Finished

  /** `listening` holds the registered listeners, `consumers` the input channel of each consumer tag,
      `used` every Go channel ever handed in, `listened` those handed in as listeners. `closed` are the closed ones; `twice` and `late` those that
      were closed again or sent to after closing, either of which panics; `heard` holds a channel as often as
      it was sent to. */
  datatype State = State(listening: map<nat, Kind>, consumers: map<nat, nat>, used: set<nat>, listened: set<nat>,
                         phase: Shutting, closed: set<nat>, twice: set<nat>, late: set<nat>, heard: multiset<nat>)

  const START: State := State(map[], map[], {}, {}, Open, {}, {}, {}, multiset{})

  datatype Event =
    | Register(kind: Kind, c: nat)   // NotifyClose, NotifyFlow, NotifyReturn, NotifyCancel, NotifyPublish
    | Dispatch(kind: Kind)           // an event for all listeners of a kind
    | Consume(tag: nat, c: nat)      // consumers.add with a new input channel
    | Cancel(tag: nat)               // consumers.cancel
    | Deliver(tag: nat)              // consumers.send
    | BeginShutdown(error: bool)     // takes the notify lock; an error goes to the close listeners
    | CloseConsumers
    | CloseListeners
    | CloseConfirms

  function Send(s: State, cs: set<nat>): State {
    s.(late := s.late + cs * s.closed, heard := s.heard + multiset(cs))
  }

  function CloseAll(s: State, cs: set<nat>): State {
    s.(twice := s.twice + cs * s.closed, closed := s.closed + cs)
  }

  function Of(s: State, kind: Kind): set<nat> {
    set c | c in s.listening && s.listening[c] == kind
  }

  /** The notify lock is free. */
  predicate Unlocked(s: State) {
    s.phase.Open? || s.phase.Finished?
  }

  function Step(s: State, e: Event): State {
    match e
    case Register(kind, c) =>
      if c in s.used || !Unlocked(s) then s
      else
        var s' := s.(used := s.used + {c}, listened := s.listened + {c});
        if s.phase.Finished? then CloseAll(s', {c}) else s'.(listening := s.listening[c := kind])
    case Dispatch(kind) =>
      if kind.ConfirmKind? || Unlocked(s) then Send(s, Of(s, kind)) else s
    case Consume(tag, c) =>
      if c in s.used then s else
      var s' := if tag in s.consumers then CloseAll(s, {s.consumers[tag]}) else s;
      s'.(used := s.used + {c}, consumers := s.consumers[tag := c])
    case Cancel(tag) =>
      if tag in s.consumers
      then CloseAll(s, {s.consumers[tag]}).(consumers := s.consumers - {tag}) else s
    case Deliver(tag) =>
      if tag in s.consumers then Send(s, {s.consumers[tag]}) else s
    case BeginShutdown(error) =>
      if !s.phase.Open? then s
      else (if error then Send(s, Of(s, CloseKind)) else s).(phase := Begun)
    case CloseConsumers =>
      if !s.phase.Begun? then s
      else CloseAll(s, s.consumers.Values).(consumers := map[], phase := ConsumersClosed)
    case CloseListeners =>
      if !s.phase.ConsumersClosed? then s
      else CloseAll(s, s.listening.Keys - Of(s, ConfirmKind))
             .(listening := map c | c in Of(s, ConfirmKind) :: ConfirmKind, phase := ListenersClosed)
    case CloseConfirms =>
      if !s.phase.ListenersClosed? then s
      else CloseAll(s, s.listening.Keys).(listening := map[], phase := Finished)
  }

  function Run(es: seq<Event>): State {
    if es == [] then START else Step(Run(es[..|es| - 1]), es[|es| - 1])
  }

  ghost predicate Inv(s: State) {
    && s.twice == {} && s.late == {} && s.closed <= s.used
    && s.listening.Keys <= s.used - s.closed && s.listened <= s.used
    && s.listened <= s.closed + s.listening.Keys
    && (forall t | t in s.consumers :: s.consumers[t] in s.used && s.consumers[t] !in s.closed)
    && (forall t | t in s.consumers :: s.consumers[t] !in s.listening && s.consumers[t] !in s.listened)
    && (forall t, t' | t in s.consumers && t' in s.consumers && t != t' :: s.consumers[t] != s.consumers[t'])
    && (s.phase.Finished? ==> s.listening == map[])
    && (s.phase.ListenersClosed? ==> forall c | c in s.listening :: s.listening[c].ConfirmKind?)
  }

  lemma {:induction false} StepKeeps(s: State, e: Event)
    requires Inv(s)
    ensures Inv(Step(s, e))
  {
  }

  lemma {:induction false} RunInv(es: seq<Event>)
    ensures Inv(Run(es))
  {
    if es != [] {
      RunInv(es[..|es| - 1]);
      StepKeeps(Run(es[..|es| - 1]), es[|es| - 1]);
    }
  }

  /** Every Go channel is closed at most once, and nothing is sent to it afterwards. */
  lemma {:induction false} ClosedOnceAndLast(es: seq<Event>)
    ensures Run(es).twice == {} && Run(es).late == {}
  {
    RunInv(es);
  }

  /** A listener or consumer channel that is no longer served has been closed: nobody waits for ever. */
  ghost predicate Accounted(s: State) {
    s.used <= s.closed + s.listening.Keys + s.consumers.Values
  }

  lemma {:induction false} AccountedStep(s: State, e: Event)
    requires Inv(s) && Accounted(s)
    ensures Accounted(Step(s, e))
  {
    if e.Consume? || e.Cancel? {
      AccountedConsumers(s, e);
    } else if e.CloseConsumers? || e.CloseListeners? || e.CloseConfirms? {
      AccountedClosing(s, e);
    } else {
      AccountedOther(s, e);
    }
  }

  lemma {:induction false} AccountedClosing(s: State, e: Event)
    requires Inv(s) && Accounted(s) && (e.CloseConsumers? || e.CloseListeners? || e.CloseConfirms?)
    ensures Accounted(Step(s, e))
  {
    var s' := Step(s, e);
    assert s'.used == s.used && s.closed <= s'.closed;
    if e.CloseConsumers? {
      assert s'.listening == s.listening;
      assert s'.consumers == s.consumers || s.consumers.Values <= s'.closed;
    } else {
      assert s'.consumers == s.consumers;
      assert s.listening.Keys <= s'.closed + s'.listening.Keys;
    }
  }

  lemma {:induction false} AccountedOther(s: State, e: Event)
    requires Accounted(s) && (e.Register? || e.Dispatch? || e.Deliver? || e.BeginShutdown?)
    ensures Accounted(Step(s, e))
  {
    if e.Register? {
      AccountedRegister(s, e);
    } else {
      SendsOnly(s, e);
    }
  }

  /** Sending changes neither who is registered nor who is closed. */
  lemma {:induction false} SendsOnly(s: State, e: Event)
    requires e.Dispatch? || e.Deliver? || e.BeginShutdown?
    ensures var s' := Step(s, e);
            s'.used == s.used && s'.closed == s.closed && s'.listening == s.listening && s'.consumers == s.consumers
  {
  }

  lemma {:induction false} AccountedRegister(s: State, e: Event)
    requires Accounted(s) && e.Register?
    ensures Accounted(Step(s, e))
  {
    var s' := Step(s, e);
    assert s'.consumers == s.consumers;
    assert s'.used == s.used || s'.used == s.used + {e.c};
    assert s'.used != s.used ==> e.c in s'.closed + s'.listening.Keys;
  }

  lemma {:induction false} AccountedConsumers(s: State, e: Event)
    requires Inv(s) && Accounted(s) && (e.Consume? || e.Cancel?)
    ensures Accounted(Step(s, e))
  {
    var s' := Step(s, e);
    forall c | c in s'.used
      ensures c in s'.closed + s'.listening.Keys + s'.consumers.Values
    {
      if c !in s.used {
        assert s'.consumers[e.tag] == c;
      } else if c !in s.closed && c !in s.listening {
        var t :| t in s.consumers && s.consumers[t] == c;
        assert t == e.tag || s'.consumers[t] == c;
      }
    }
  }

  lemma {:induction false} AccountedRun(es: seq<Event>)
    ensures Accounted(Run(es))
  {
    if es != [] {
      AccountedRun(es[..|es| - 1]);
      RunInv(es[..|es| - 1]);
      AccountedStep(Run(es[..|es| - 1]), es[|es| - 1]);
    }
  }

  /** Once shutdown is over every listener ever registered has been closed, and one registered later is
      closed at once. An input of a consumer has been closed unless it belongs to a consumer that was added
      after shutdown had closed the others. */
  lemma {:induction false} NoListenerAfterShutdown(es: seq<Event>, c: nat, kind: Kind)
    requires Run(es).phase.Finished?
    ensures Run(es).listened <= Run(es).closed
    ensures c !in Run(es).used ==> c in Step(Run(es), Register(kind, c)).closed
    ensures Run(es).used - Run(es).listened <= Run(es).closed + Run(es).consumers.Values
  {
    RunInv(es);
    AccountedRun(es);
  }

  lemma {:induction false} RunSnoc(es: seq<Event>, e: Event)
    ensures Run(es + [e]) == Step(Run(es), e)
  {
    assert (es + [e])[..|es|] == es;
  }

  /** Shutdown runs through: whatever came before, its steps close every listener and every consumer input that
      was open, and leave nobody registered. */
  lemma {:induction false} ShutdownCompletes(es: seq<Event>, error: bool)
    requires Run(es).phase.Open?
    ensures var s' := Run(es + [BeginShutdown(error)] + [CloseConsumers] + [CloseListeners] + [CloseConfirms]);
            && s'.phase.Finished? && s'.listening == map[] && s'.consumers == map[]
            && s'.closed == Run(es).used
  {
    var e1 := es + [BeginShutdown(error)];
    var e2 := e1 + [CloseConsumers];
    var e3 := e2 + [CloseListeners];
    RunSnoc(es, BeginShutdown(error));
    RunSnoc(e1, CloseConsumers);
    RunSnoc(e2, CloseListeners);
    RunSnoc(e3, CloseConfirms);
    AccountedRun(e3 + [CloseConfirms]);
    RunInv(e3 + [CloseConfirms]);
    ShutdownPhases(Run(es), error);
  }

  lemma {:induction false} ShutdownPhases(s: State, error: bool)
    requires s.phase.Open?
    ensures var s' := Step(Step(Step(Step(s, BeginShutdown(error)), CloseConsumers), CloseListeners), CloseConfirms);
            s'.phase.Finished? && s'.listening == map[] && s'.consumers == map[] && s'.used == s.used
  {
  }

  // ----- who hears what -----

  /** Some event registered `c` as a listener of the kind, or as the input of the consumer. */
  ghost predicate Happened(es: seq<Event>, wanted: (State, Event) -> bool) {
    exists k :: HappensAt(es, k, wanted)
  }

  ghost predicate HappensAt(es: seq<Event>, k: nat, wanted: (State, Event) -> bool) {
    k < |es| && wanted(Run(es[..k]), es[k])
  }

  lemma {:induction false} HappenedSnoc(es: seq<Event>, wanted: (State, Event) -> bool)
    requires es != []
    ensures var before, e := es[..|es| - 1], es[|es| - 1];
            Happened(es, wanted) <==> Happened(before, wanted) || wanted(Run(before), e)
  {
    var before, e := es[..|es| - 1], es[|es| - 1];
    if k: nat :| HappensAt(es, k, wanted) {
      assert k < |before| ==> before[..k] == es[..k] && HappensAt(before, k, wanted);
    }
    if k: nat :| HappensAt(before, k, wanted) {
      assert before[..k] == es[..k] && HappensAt(es, k, wanted);
    }
    if wanted(Run(before), e) {
      assert HappensAt(es, |es| - 1, wanted);
    }
  }

  /** A new channel is registered as a listener of the kind. */
  function Registers(kind: Kind, c: nat): (State, Event) -> bool {
    (s: State, e: Event) => e == Register(kind, c) && c !in s.used && Unlocked(s)
  }

  /** A new channel is taken as the input of the consumer. */
  function Subscribes(tag: nat, c: nat): (State, Event) -> bool {
    (s: State, e: Event) => e == Consume(tag, c) && c !in s.used
  }

  lemma {:induction false} ListenerStep(s: State, e: Event, kind: Kind, c: nat)
    requires Inv(s)
    ensures var s' := Step(s, e);
            && (c in s'.listening && s'.listening[c] == kind
                <==> c !in s'.closed && ((c in s.listening && s.listening[c] == kind) || Registers(kind, c)(s, e)))
            && s.closed <= s'.closed && s.used <= s'.used
  {
  }

  lemma {:induction false} ConsumerStep(s: State, e: Event, tag: nat, c: nat)
    requires Inv(s)
    ensures var s' := Step(s, e);
            && (tag in s'.consumers && s'.consumers[tag] == c
                <==> c !in s'.closed && ((tag in s.consumers && s.consumers[tag] == c) || Subscribes(tag, c)(s, e)))
            && s.closed <= s'.closed && s.used <= s'.used
  {
  }

  /** The listeners of a kind are those that were ever registered as such and have not been closed. */
  lemma {:induction false} ListenersOf(es: seq<Event>, kind: Kind, c: nat)
    ensures c in Of(Run(es), kind) <==> Happened(es, Registers(kind, c)) && c !in Run(es).closed
  {
    if es != [] {
      var before, e := es[..|es| - 1], es[|es| - 1];
      ListenersOf(before, kind, c);
      RunInv(before);
      ListenerStep(Run(before), e, kind, c);
      HappenedSnoc(es, Registers(kind, c));
    }
  }

  lemma {:induction false} ConsumersOf(es: seq<Event>, tag: nat, c: nat)
    ensures tag in Run(es).consumers && Run(es).consumers[tag] == c
            <==> Happened(es, Subscribes(tag, c)) && c !in Run(es).closed
  {
    if es != [] {
      var before, e := es[..|es| - 1], es[|es| - 1];
      ConsumersOf(before, tag, c);
      RunInv(before);
      ConsumerStep(Run(before), e, tag, c);
      HappenedSnoc(es, Subscribes(tag, c));
    }
  }

  /** An event for a kind of listeners reaches, once each, exactly those that were registered for the kind and
      have not been closed; so does the error of a shutdown the close listeners. */
  lemma {:induction false} ListenersHear(es: seq<Event>, kind: Kind, c: nat)
    ensures kind.ConfirmKind? || Unlocked(Run(es)) ==>
              Step(Run(es), Dispatch(kind)).heard[c]
              == Run(es).heard[c] + if Happened(es, Registers(kind, c)) && c !in Run(es).closed then 1 else 0
    ensures Run(es).phase.Open? ==>
              Step(Run(es), BeginShutdown(true)).heard[c]
              == Run(es).heard[c] + if Happened(es, Registers(CloseKind, c)) && c !in Run(es).closed then 1 else 0
  {
    ListenersOf(es, kind, c);
    ListenersOf(es, CloseKind, c);
  }

  /** A delivery reaches exactly the input of its consumer that has not been closed. */
  lemma {:induction false} ConsumersHear(es: seq<Event>, tag: nat, c: nat)
    ensures Step(Run(es), Deliver(tag)).heard[c]
            == Run(es).heard[c] + if Happened(es, Subscribes(tag, c)) && c !in Run(es).closed then 1 else 0
  {
    ConsumersOf(es, tag, c);
  }
}
