/** Publisher confirms over whole runs. The steps are the critical sections of confirms.go: One and
    Multiple hold the confirms lock throughout, but `publish` and `unpublish` only take the counter's lock
    and may run between settling the handles, notifying the listeners and resequencing. */
module ConfirmRuns {
  import opened Confirms
  import opened Sequences

  /** How far the current One or Multiple has got; `before` is what had been confirmed when it began. */
  datatype Phase = Idle | Settled(conf: Confirmation, multiple: bool, before: set<nat>) | Passed

  /** `confirmed` is every tag confirmed so far, `swept` the tags that a Multiple passed on with the
      opposite of their buffered ack; `stray` that some confirmation was for a tag not published (or no
      longer), or that the counter went round, up or down; `repeated` that a tag was confirmed singly a
      second time. */
  datatype State = State(published: nat, d: Deferred, q: Reseq, phase: Phase,
                         confirmed: set<nat>, swept: set<nat>, stray: bool, repeated: bool, closed: bool)

  const START: State := State(0, NO_DEFERRED, NEW_RESEQ, Idle, {}, {}, false, false, false)

  datatype Event =
    | Publish
    | Unpublish
    | Register
    | Begin(conf: Confirmation, multiple: bool)
    | Pass
    | Finish
    | Close

  /** The tags 1..n. */
  function Range(n: nat): (r: set<nat>)
    ensures forall t :: t in r <==> 1 <= t <= n
  {
    if n == 0 then {} else Range(n - 1) + {n}
  }

  function Tags(conf: Confirmation, multiple: bool): set<nat> {
    if multiple then Range(conf.tag) else {conf.tag}
  }

  /** The buffered tags that a Multiple contradicts. */
  function Contradicted(q: Reseq, conf: Confirmation): set<nat> {
    set t | t in q.sequencer && q.expecting <= t <= conf.tag && q.sequencer[t].ack != conf.ack
  }

  function Step(s: State, e: Event): State {
    match e
    case Publish =>
      s.(published := Increment(s.published), d := Add(s.d, Increment(s.published)),
         stray := s.stray || s.published == UINT64_MAX)
    case Unpublish =>
      s.(published := Decrement(s.published), d := Remove(s.d, s.published),
         stray := s.stray || s.published in s.confirmed || s.published == 0)
    case Register => if s.phase.Idle? then s.(q := Listen(s.q)) else s
    case Begin(conf, multiple) =>
      if !s.phase.Idle? then s
      else s.(d := Resolve(s.d, if multiple then PendingUpTo(s.d, conf.tag) else {conf.tag}, conf.ack),
              phase := Settled(conf, multiple, s.confirmed),
              confirmed := s.confirmed + Tags(conf, multiple),
              stray := s.stray || conf.tag > s.published || (!multiple && conf.tag == 0),
              repeated := s.repeated || (!multiple && conf.tag in s.confirmed))
    case Pass =>
      if !s.phase.Settled? then s
      else s.(q := if s.phase.multiple then Multiple(s.q, s.phase.conf) else One(s.q, s.phase.conf),
              swept := if s.phase.multiple then s.swept + Contradicted(s.q, s.phase.conf) else s.swept,
              phase := Passed)
    case Finish => if s.phase.Passed? then s.(q := Resequence(s.q, s.published), phase := Idle) else s
    case Close =>
      if !s.phase.Idle? then s
      else s.(d := Settle(s.d, s.d.pending.Keys, false), q := s.q.(listeners := []), closed := true)
  }

  function Run(es: seq<Event>): State {
    if es == [] then START else Step(Run(es[..|es| - 1]), es[|es| - 1])
  }

  // ----- what every step keeps -----

  /** The tags already taken into account by the resequencer. */
  function Applied(s: State): set<nat> {
    if s.phase.Settled? then s.phase.before else s.confirmed
  }

  /** Tags below `expecting` are confirmed; from there on the sequencer buffers exactly the confirmed ones. */
  ghost predicate Buffers(q: Reseq, confirmed: set<nat>) {
    && (forall t | 1 <= t < q.expecting :: t in confirmed)
    && (forall t | t in confirmed && q.expecting <= t :: t in q.sequencer)
    && (forall t | t in q.sequencer && q.expecting <= t :: t in confirmed)
  }

  lemma {:induction false} BuffersOne(q: Reseq, confirmed: set<nat>, conf: Confirmation)
    requires ListenersInv(q) && Buffers(q, confirmed)
    ensures ListenersInv(One(q, conf)) && Buffers(One(q, conf), confirmed + {conf.tag})
  {
    OneRun(q, conf);
  }

  lemma {:induction false} BuffersMultiple(q: Reseq, confirmed: set<nat>, conf: Confirmation)
    requires ListenersInv(q) && Buffers(q, confirmed)
    ensures ListenersInv(Multiple(q, conf)) && Buffers(Multiple(q, conf), confirmed + Range(conf.tag))
  {
    MultipleRun(q, conf);
    var r, all := Multiple(q, conf), confirmed + Range(conf.tag);
    forall t | 1 <= t < r.expecting
      ensures t in all
    {
      assert t < q.expecting ==> t in confirmed;
    }
  }

  lemma {:induction false} BuffersResequence(q: Reseq, confirmed: set<nat>, published: nat)
    requires ListenersInv(q) && Buffers(q, confirmed)
    ensures var r := Resequence(q, published);
            && ListenersInv(r) && Buffers(r, confirmed)
            && (r.expecting > published || r.expecting !in confirmed)
  {
    ResequenceRun(q, published);
    var r := Resequence(q, published);
    forall t | 1 <= t < r.expecting
      ensures t in confirmed
    {
      if t >= q.expecting {
        assert t in q.sequencer;
      }
    }
  }

  ghost predicate OrderInv(s: State) {
    && ListenersInv(s.q) && Buffers(s.q, Applied(s))
    && (s.phase.Settled? ==> s.confirmed == s.phase.before + Tags(s.phase.conf, s.phase.multiple))
    && (!s.stray ==> forall t | t in s.confirmed :: 1 <= t <= s.published)
    && (!s.stray && s.phase.Idle? ==> s.q.expecting !in s.confirmed)
  }

  lemma {:induction false} OrderPass(s: State)
    requires OrderInv(s) && s.phase.Settled?
    ensures OrderInv(Step(s, Pass))
  {
    if s.phase.multiple {
      BuffersMultiple(s.q, s.phase.before, s.phase.conf);
    } else {
      BuffersOne(s.q, s.phase.before, s.phase.conf);
    }
  }

  lemma {:induction false} OrderFinish(s: State)
    requires OrderInv(s) && s.phase.Passed?
    ensures OrderInv(Step(s, Finish))
  {
    BuffersResequence(s.q, s.confirmed, s.published);
  }

  lemma {:induction false} OrderKeeps(s: State, e: Event)
    requires OrderInv(s)
    ensures OrderInv(Step(s, e))
  {
    match e
    case Pass =>
      if s.phase.Settled? {
        OrderPass(s);
      }
    case Finish =>
      if s.phase.Passed? {
        OrderFinish(s);
      }
    case Register =>
      var s' := Step(s, e);
      forall i | 0 <= i < |s'.q.listeners|
        ensures UpToDate(s'.q.listeners[i], s'.q)
      {
        if i < |s.q.listeners| {
          assert s'.q.listeners[i] == s.q.listeners[i] && UpToDate(s.q.listeners[i], s.q);
        }
      }
    case _ =>
      var s' := Step(s, e);
      assert s'.q.listeners == s.q.listeners || s'.q.listeners == [];
  }

  lemma {:induction false} DeferredKeeps(s: State, e: Event)
    requires DeferredInv(s.d)
    ensures DeferredInv(Step(s, e).d)
    ensures NoneForgotten(Step(s, e).d) <==> NoneForgotten(s.d) && !Reuses(s, e)
  {
    var d := s.d;
    if e.Publish? {
      AddKeeps(d, Increment(s.published));
      AddForgets(d, Increment(s.published));
    } else if e.Unpublish? {
      SettleKeeps(d, {s.published}, false);
    } else if e.Begin? && s.phase.Idle? {
      var tags := if e.multiple then PendingUpTo(d, e.conf.tag) else {e.conf.tag};
      ResolveKeeps(d, tags, e.conf.ack);
      assert Step(s, e).d == Resolve(d, tags, e.conf.ack);
    } else if e.Close? && s.phase.Idle? {
      SettleKeeps(d, d.pending.Keys, false);
    } else {
      assert Step(s, e).d == d;
    }
  }

  lemma {:induction false} RunKeeps(es: seq<Event>)
    ensures OrderInv(Run(es)) && DeferredInv(Run(es).d)
  {
    if es != [] {
      var n := |es|;
      RunKeeps(es[..n - 1]);
      OrderKeeps(Run(es[..n - 1]), es[n - 1]);
      DeferredKeeps(Run(es[..n - 1]), es[n - 1]);
    }
  }

  // ----- something that happens in a run -----

  /** Some event of the run, in the state that it met, was of a kind. */
  ghost predicate Sometime(es: seq<Event>, kind: (State, Event) -> bool) {
    exists k :: HappensAt(es, k, kind)
  }

  ghost predicate HappensAt(es: seq<Event>, k: nat, kind: (State, Event) -> bool) {
    k < |es| && kind(Run(es[..k]), es[k])
  }

  lemma {:induction false} SometimeSnoc(es: seq<Event>, kind: (State, Event) -> bool)
    requires es != []
    ensures var before, e := es[..|es| - 1], es[|es| - 1];
            Sometime(es, kind) <==> Sometime(before, kind) || kind(Run(before), e)
  {
    var before, e := es[..|es| - 1], es[|es| - 1];
    if k: nat :| HappensAt(es, k, kind) {
      assert k < |before| ==> before[..k] == es[..k] && HappensAt(before, k, kind);
    }
    if k: nat :| HappensAt(before, k, kind) {
      assert before[..k] == es[..k] && HappensAt(es, k, kind);
    }
    if kind(Run(before), e) {
      assert HappensAt(es, |es| - 1, kind);
    }
  }

  /** In every interleaving, a listener registered when `expecting` was k has received exactly the tags k,
      k + 1, ..., expecting - 1, in order and once each, with the same acks as every other listener. */
  lemma {:induction false} ListenersInOrder(es: seq<Event>, i: nat)
    requires i < |Run(es).q.listeners|
    ensures var q := Run(es).q;
            var l := q.listeners[i];
            && 1 <= l.start <= q.expecting && |l.log| == q.expecting - l.start && |q.sent| == q.expecting - 1
            && forall j | 0 <= j < |l.log| :: l.log[j] == Confirmation(l.start + j, q.sent[l.start - 1 + j])
  {
    RunKeeps(es);
    assert UpToDate(Run(es).q.listeners[i], Run(es).q);
  }

  /** A listener joins the others with the next tag to come, and nothing but closing removes one. */
  lemma {:induction false} ListenersStep(s: State, e: Event)
    ensures !(e.Close? && s.phase.Idle?) ==> Extends(s.q.listeners, Step(s, e).q.listeners)
    ensures !(e.Close? && s.phase.Idle?) ==>
              |Step(s, e).q.listeners| == |s.q.listeners| + if e.Register? && s.phase.Idle? then 1 else 0
    ensures e.Register? && s.phase.Idle? ==>
              Step(s, e).q.listeners[|s.q.listeners|] == Listener(s.q.expecting, [])
  {
    if e.Finish? {
      ResequenceExtends(s.q, s.published);
    } else if e.Pass? && s.phase.Settled? && s.phase.multiple {
      MultipleExtends(s.q, s.phase.conf);
    }
  }

  /** Every listener ever registered keeps its place and all it has received until the confirms are closed. */
  lemma {:induction false} ListenersStay(es: seq<Event>, more: seq<Event>)
    requires forall k | 0 <= k < |more| :: !more[k].Close?
    ensures Extends(Run(es).q.listeners, Run(es + more).q.listeners)
  {
    if more == [] {
      assert es + more == es;
    } else {
      var most, e := more[..|more| - 1], more[|more| - 1];
      ListenersStay(es, most);
      SplitLast(more);
      ConcatAssoc(es, most, [e]);
      RunSnoc(es + most, e);
      ListenersStep(Run(es + most), e);
      ExtendsTransitive(Run(es).q.listeners, Run(es + most).q.listeners, Run(es + more).q.listeners);
    }
  }

  /** `m` is the largest number such that all of 1..m have been confirmed. */
  ghost predicate LargestPrefix(m: nat, confirmed: set<nat>) {
    (forall t | 1 <= t <= m :: t in confirmed) && m + 1 !in confirmed
  }

  /** Once a One or Multiple is over, everything that can be passed on has been. */
  lemma {:induction false} NothingHeldBack(es: seq<Event>)
    requires !Run(es).stray && Run(es).phase.Idle?
    ensures Run(es).q.expecting >= 1 && LargestPrefix(Run(es).q.expecting - 1, Run(es).confirmed)
  {
    RunKeeps(es);
  }

  // ----- listeners and handles agree -----

  /** The ack in the handle that a confirmation resolved. */
  function Stored(d: Deferred, t: nat): bool
    requires t in d.resolved && d.resolved[t] < |d.handles|
  {
    d.handles[d.resolved[t]].ack
  }

  ghost predicate InTable(d: Deferred) {
    forall t | t in d.resolved :: d.resolved[t] < |d.handles|
  }

  ghost predicate Regular(s: State) {
    !s.stray && !s.repeated && !s.closed
  }

  /** The handles: confirmed tags are resolved, all other published tags are pending. */
  ghost predicate TableInv(s: State) {
    && s.d.resolved.Keys == s.confirmed && InTable(s.d)
    && (forall t :: t in s.d.pending <==> 1 <= t <= s.published && t !in s.confirmed)
    && (s.phase.Settled? ==>
          && (forall t | t in s.confirmed && t !in s.phase.before :: Stored(s.d, t) == s.phase.conf.ack)
          && (!s.phase.multiple ==> s.phase.conf.tag !in s.phase.before))
  }

  /** What was buffered and what was passed on, against what the handles say. */
  ghost predicate AgreeInv(s: State) {
    && ListenersInv(s.q) && s.d.resolved.Keys == s.confirmed && InTable(s.d)
    && (forall t | t in s.q.sequencer && s.q.expecting <= t ::
          t in s.confirmed && s.q.sequencer[t].ack == Stored(s.d, t))
    && (forall t | t in s.confirmed && t < s.q.expecting ::
          1 <= t && (s.q.sent[t - 1] == Stored(s.d, t) <==> t !in s.swept))
    && (forall t | t in s.swept :: t < s.q.expecting)
  }

  ghost predicate Inv(s: State) {
    && OrderInv(s) && DeferredInv(s.d)
    && (Regular(s) ==> TableInv(s) && AgreeInv(s))
  }

  /** Settling pending tags leaves the handles resolved before alone. */
  lemma {:induction false} StoredKept(d: Deferred, tags: set<nat>, ack: bool, t: nat)
    requires DeferredInv(d) && t in d.resolved && t !in d.pending
    ensures Stored(d, t) == d.handles[d.resolved[t]].ack == Settle(d, tags, ack).handles[d.resolved[t]].ack
  {
  }

  lemma {:induction false} AgreePublish(s: State)
    requires Inv(s) && Regular(Step(s, Publish))
    ensures TableInv(Step(s, Publish)) && AgreeInv(Step(s, Publish))
  {
    var s' := Step(s, Publish);
    AddKeeps(s.d, Increment(s.published));
    assert forall t | t in s.d.resolved :: Stored(s'.d, t) == Stored(s.d, t);
  }

  lemma {:induction false} AgreeUnpublish(s: State)
    requires Inv(s) && Regular(Step(s, Unpublish))
    ensures TableInv(Step(s, Unpublish)) && AgreeInv(Step(s, Unpublish))
  {
    var s' := Step(s, Unpublish);
    SettleKeeps(s.d, {s.published}, false);
    forall t | t in s.d.resolved
      ensures Stored(s'.d, t) == Stored(s.d, t)
    {
      StoredKept(s.d, {s.published}, false, t);
    }
  }

  lemma {:induction false} ResolveStored(d: Deferred, tags: set<nat>, ack: bool)
    requires DeferredInv(d) && d.resolved.Keys !! d.pending.Keys
    ensures var r := Resolve(d, tags, ack);
            && InTable(r) && r.resolved.Keys == d.resolved.Keys + d.pending.Keys * tags
            && (forall t | t in d.resolved :: Stored(r, t) == Stored(d, t))
            && (forall t | t in d.pending && t in tags :: Stored(r, t) == ack)
  {
    ResolveKeeps(d, tags, ack);
    var r := Resolve(d, tags, ack);
    forall t | t in d.resolved
      ensures Stored(r, t) == Stored(d, t)
    {
      StoredKept(d, tags, ack, t);
    }
  }

  lemma {:induction false} BeginTable(s: State, conf: Confirmation, multiple: bool)
    requires Inv(s) && s.phase.Idle? && Regular(Step(s, Begin(conf, multiple)))
    ensures TableInv(Step(s, Begin(conf, multiple)))
    ensures forall t | t in s.d.resolved ::
              t in Step(s, Begin(conf, multiple)).d.resolved && Stored(Step(s, Begin(conf, multiple)).d, t) == Stored(s.d, t)
  {
    var s' := Step(s, Begin(conf, multiple));
    var tags := if multiple then PendingUpTo(s.d, conf.tag) else {conf.tag};
    ResolveStored(s.d, tags, conf.ack);
    forall t | t in Tags(conf, multiple) && t !in s.confirmed
      ensures t in s.d.pending && t in tags
    {
      assert 1 <= t <= s.published;
    }
  }

  lemma {:induction false} AgreeBegin(s: State, conf: Confirmation, multiple: bool)
    requires Inv(s) && s.phase.Idle? && Regular(Step(s, Begin(conf, multiple)))
    ensures TableInv(Step(s, Begin(conf, multiple))) && AgreeInv(Step(s, Begin(conf, multiple)))
  {
    BeginTable(s, conf, multiple);
    OrderKeeps(s, Begin(conf, multiple));
  }

  lemma {:induction false} AgreePassOne(s: State)
    requires Inv(s) && Regular(s) && s.phase.Settled? && !s.phase.multiple
    ensures AgreeInv(Step(s, Pass))
  {
    OneRun(s.q, s.phase.conf);
    var s' := Step(s, Pass);
    forall t | t in s'.confirmed && t < s'.q.expecting
      ensures 1 <= t && (s'.q.sent[t - 1] == Stored(s'.d, t) <==> t !in s'.swept)
    {
      if t < s.q.expecting {
        assert s'.q.sent[t - 1] == s'.q.sent[..s.q.expecting - 1][t - 1];
      }
    }
  }

  lemma {:induction false} AgreePassMultiple(s: State)
    requires Inv(s) && Regular(s) && s.phase.Settled? && s.phase.multiple
    ensures AgreeInv(Step(s, Pass))
  {
    MultipleRun(s.q, s.phase.conf);
    var s' := Step(s, Pass);
    forall t | t in s'.confirmed && t < s'.q.expecting
      ensures 1 <= t && (s'.q.sent[t - 1] == Stored(s'.d, t) <==> t !in s'.swept)
    {
      if t < s.q.expecting {
        assert s'.q.sent[t - 1] == s'.q.sent[..s.q.expecting - 1][t - 1];
      } else if t in s.phase.before {
        assert t in s.q.sequencer;
        assert t in s'.swept <==> s.q.sequencer[t].ack != s.phase.conf.ack;
      }
    }
  }

  lemma {:induction false} AgreeFinish(s: State)
    requires Inv(s) && Regular(s) && s.phase.Passed?
    ensures AgreeInv(Step(s, Finish))
  {
    ResequenceRun(s.q, s.published);
    var s' := Step(s, Finish);
    forall t | t in s'.confirmed && t < s'.q.expecting
      ensures 1 <= t && (s'.q.sent[t - 1] == Stored(s'.d, t) <==> t !in s'.swept)
    {
      if t < s.q.expecting {
        assert s'.q.sent[t - 1] == s'.q.sent[..s.q.expecting - 1][t - 1];
      } else {
        assert t in s.q.sequencer;
      }
    }
  }

  lemma {:induction false} InvKeeps(s: State, e: Event)
    requires Inv(s)
    ensures Inv(Step(s, e))
  {
    OrderKeeps(s, e);
    DeferredKeeps(s, e);
    var s' := Step(s, e);
    if Regular(s') {
      match e
      case Publish =>
        AgreePublish(s);
      case Unpublish =>
        AgreeUnpublish(s);
      case Begin(conf, multiple) =>
        if s.phase.Idle? {
          AgreeBegin(s, conf, multiple);
        }
      case Pass =>
        if s.phase.Settled? {
          if s.phase.multiple {
            AgreePassMultiple(s);
          } else {
            AgreePassOne(s);
          }
        }
      case Finish =>
        if s.phase.Passed? {
          AgreeFinish(s);
        }
      case _ =>
    }
  }

  lemma {:induction false} RunInv(es: seq<Event>)
    ensures Inv(Run(es))
  {
    if es != [] {
      RunInv(es[..|es| - 1]);
      InvKeeps(Run(es[..|es| - 1]), es[|es| - 1]);
    }
  }

  /** A Multiple passes tag `t` on with the opposite of the ack that is buffered for it. */
  predicate Sweeps(s: State, e: Event, t: nat) {
    e.Pass? && s.phase.Settled? && s.phase.multiple && t in Contradicted(s.q, s.phase.conf)
  }

  function Sweeping(t: nat): (State, Event) -> bool {
    (s, e) => Sweeps(s, e, t)
  }

  lemma {:induction false} SweptTells(es: seq<Event>, t: nat)
    ensures t in Run(es).swept <==> Sometime(es, Sweeping(t))
  {
    if es != [] {
      var before, e := es[..|es| - 1], es[|es| - 1];
      SweptTells(before, t);
      SometimeSnoc(es, Sweeping(t));
      assert Sweeping(t)(Run(before), e) <==> Sweeps(Run(before), e, t);
    }
  }

  /** If no confirmation strays and no tag is confirmed singly twice, then the ack in a listener's log is
      the ack in the handle of the same tag, if and only if no Multiple ever passed the tag on with the
      opposite of its buffered ack. */
  lemma {:induction false} AcksAgree(es: seq<Event>, i: nat, j: nat)
    requires Regular(Run(es)) && Run(es).phase.Idle?
    requires i < |Run(es).q.listeners| && j < |Run(es).q.listeners[i].log|
    ensures var d, conf := Run(es).d, Run(es).q.listeners[i].log[j];
            && conf.tag in d.resolved && d.resolved[conf.tag] < |d.handles| && d.handles[d.resolved[conf.tag]].tag == conf.tag
            && (conf.ack == Stored(d, conf.tag) <==> !Sometime(es, Sweeping(conf.tag)))
  {
    RunKeeps(es);
    var q := Run(es).q;
    assert UpToDate(q.listeners[i], q);
    TagAgrees(es, q.listeners[i].log[j].tag);
  }

  lemma {:induction false} TagAgrees(es: seq<Event>, t: nat)
    requires Regular(Run(es)) && Run(es).phase.Idle? && 1 <= t < Run(es).q.expecting
    ensures var d, q := Run(es).d, Run(es).q;
            && |q.sent| == q.expecting - 1
            && t in d.resolved && d.resolved[t] < |d.handles| && d.handles[d.resolved[t]].tag == t
            && (q.sent[t - 1] == Stored(d, t) <==> !Sometime(es, Sweeping(t)))
  {
    RunInv(es);
    SweptTells(es, t);
  }

  lemma {:induction false} RunSnoc(es: seq<Event>, e: Event)
    ensures Run(es + [e]) == Step(Run(es), e)
  {
    assert (es + [e])[..|es|] == es;
  }

  /** Two publishes, a nack for the second that has to wait for the first. */
  lemma {:induction false} NackBuffered() returns (es: seq<Event>)
    ensures var s := Run(es);
            && Regular(s) && s.phase.Idle? && s.published == 2 && s.q.expecting == 1
            && |s.q.listeners| == 1 && 2 in s.q.sequencer && !s.q.sequencer[2].ack
  {
    var nack := Begin(Confirmation(2, false), false);
    es := [Register];
    RunSnoc([], Register);
    assert [] + [Register] == es;
    RunSnoc(es, Publish);
    es := es + [Publish];
    RunSnoc(es, Publish);
    es := es + [Publish];
    RunSnoc(es, nack);
    es := es + [nack];
    RunSnoc(es, Pass);
    es := es + [Pass];
    RunSnoc(es, Finish);
    es := es + [Finish];
  }

  /** The acks do disagree in some run: a listener hears an ack for a tag whose handle holds a nack. */
  lemma {:induction false} AcksCanDisagree() returns (es: seq<Event>)
    ensures var s := Run(es);
            && Regular(s) && s.phase.Idle? && |s.q.listeners| == 1 && |s.q.listeners[0].log| == 2
            && s.q.listeners[0].log[1] == Confirmation(2, true)
            && 2 in s.d.resolved && s.d.resolved[2] < |s.d.handles| && !Stored(s.d, 2)
  {
    var before := NackBuffered();
    var begin := Begin(Confirmation(2, true), true);
    es := before + [begin] + [Pass] + [Finish];
    SweptAtTwo(before, begin);
    RunInv(es);
    SweptTells(es, 2);
    var q := Run(es).q;
    assert UpToDate(q.listeners[0], q);
    AcksAgree(es, 0, 1);
  }

  lemma {:induction false} TwoPassed(q: Reseq)
    requires ListenersInv(q) && q.expecting == 1 && |q.listeners| == 1
    ensures var r := Multiple(q, Confirmation(2, true));
            && r.expecting == 3 && |r.listeners| == 1 && r.listeners[0].start == 1 && |r.sent| == 2 && r.sent[1]
            && Resequence(r, 2) == r
  {
    var q1 := Confirm(q, Confirmation(1, true));
    var q2 := Confirm(q1, Confirmation(2, true));
    assert Multiple(q, Confirmation(2, true)) == Multiple(q1, Confirmation(2, true)) == Multiple(q2, Confirmation(2, true)) == q2;
    assert UpToDate(q.listeners[0], q);
  }

  lemma {:induction false} SweptAtTwo(before: seq<Event>, begin: Event)
    requires var s := Run(before);
             && Regular(s) && s.phase.Idle? && s.published == 2 && s.q.expecting == 1
             && |s.q.listeners| == 1 && 2 in s.q.sequencer && !s.q.sequencer[2].ack
    requires begin == Begin(Confirmation(2, true), true)
    ensures var s := Run(before + [begin] + [Pass] + [Finish]);
            && Regular(s) && s.phase.Idle? && 2 in s.swept && s.q.expecting == 3
            && |s.q.listeners| == 1 && s.q.listeners[0].start == 1 && |s.q.sent| == 2 && s.q.sent[1]
  {
    RunSnoc(before, begin);
    RunSnoc(before + [begin], Pass);
    RunSnoc(before + [begin] + [Pass], Finish);
    RunKeeps(before);
    TwoPassed(Run(before).q);
    assert 2 in Contradicted(Run(before).q, Confirmation(2, true));
  }

  // ----- handles and tags -----

  /** A publish is given a tag that is still pending. */
  predicate Reuses(s: State, e: Event) {
    e.Publish? && Increment(s.published) in s.d.pending
  }

  predicate IsPublish(e: Event) {
    e.Publish?
  }

  /** The pending handles are exactly the unresolved ones if and only if no publish was ever given a tag
      that was still pending. */
  lemma {:induction false} ForgottenTells(es: seq<Event>)
    ensures NoneForgotten(Run(es).d) <==> !Sometime(es, Reuses)
  {
    if es != [] {
      var n := |es|;
      ForgottenTells(es[..n - 1]);
      RunKeeps(es[..n - 1]);
      DeferredKeeps(Run(es[..n - 1]), es[n - 1]);
      SometimeSnoc(es, Reuses);
    }
  }

  lemma {:induction false} RecentStep(s: State, e: Event, n: nat)
    requires Recent(s.d, s.published, n) && (e.Publish? ==> n <= UINT64_MAX)
    ensures Recent(Step(s, e).d, Step(s, e).published, if e.Publish? then n + 1 else n) && !Reuses(s, e)
  {
    if e.Publish? {
      AddRecent(s.d, s.published, n);
    } else if e.Unpublish? {
      RemoveRecent(s.d, s.published, n);
    } else {
      assert Step(s, e).d.pending.Keys <= s.d.pending.Keys;
    }
  }

  /** That takes 2^64 publishes, however often the counter goes round. */
  lemma {:induction false} NoReuse(es: seq<Event>)
    requires Count(es, IsPublish) <= UINT64_MAX
    ensures !Sometime(es, Reuses)
    ensures Recent(Run(es).d, Run(es).published, Count(es, IsPublish))
  {
    if es != [] {
      var n := |es|;
      NoReuse(es[..n - 1]);
      RecentStep(Run(es[..n - 1]), es[n - 1], Count(es[..n - 1], IsPublish));
      SometimeSnoc(es, Reuses);
    }
  }

  /** Each handle is resolved at most once, and in any run of fewer than 2^64 publishes the pending ones
      are exactly the unresolved. */
  lemma {:induction false} HandlesOnce(es: seq<Event>, i: nat)
    requires i < |Run(es).d.handles|
    ensures var s := Run(es);
            var h := s.d.handles[i];
            && h.closes <= 1
            && (h.tag in s.d.pending && s.d.pending[h.tag] == i ==> h.closes == 0)
            && (Count(es, IsPublish) <= UINT64_MAX && h.closes == 0 ==> h.tag in s.d.pending && s.d.pending[h.tag] == i)
  {
    RunKeeps(es);
    ForgottenTells(es);
    if Count(es, IsPublish) <= UINT64_MAX {
      NoReuse(es);
      assert Remembered(Run(es).d, i);
    }
  }

  /** The pending tags are 1..published at most. */
  ghost predicate Bounded(s: State) {
    forall t | t in s.d.pending :: 1 <= t <= s.published
  }

  /** A publish takes the counter round from its highest value to zero. */
  predicate Wraps(s: State, e: Event) {
    e.Publish? && s.published == UINT64_MAX
  }

  lemma {:induction false} BoundedStep(s: State, e: Event)
    requires Bounded(s)
    ensures Bounded(Step(s, e)) <==> !Wraps(s, e)
  {
    var s' := Step(s, e);
    if e.Publish? {
      assert Increment(s.published) in s'.d.pending;
    } else {
      assert s'.d.pending.Keys <= s.d.pending.Keys;
    }
  }

  ghost predicate BoundedThroughout(es: seq<Event>) {
    forall k | 0 <= k <= |es| :: Bounded(Run(es[..k]))
  }

  /** Pending tags lie between 1 and the counter throughout a run if and only if no publish takes the
      counter round; a publish that does is given tag zero. */
  lemma {:induction false} TagsWithinCounter(es: seq<Event>)
    ensures BoundedThroughout(es) <==> !Sometime(es, Wraps)
  {
    if es != [] {
      var n := |es|;
      TagsWithinCounter(es[..n - 1]);
      SometimeSnoc(es, Wraps);
      BoundedSnoc(es);
      if BoundedThroughout(es[..n - 1]) {
        BoundedNow(es[..n - 1]);
        BoundedStep(Run(es[..n - 1]), es[n - 1]);
      }
    } else {
      assert Bounded(START);
    }
  }

  lemma {:induction false} BoundedNow(es: seq<Event>)
    requires BoundedThroughout(es)
    ensures Bounded(Run(es))
  {
    assert es[..|es|] == es;
  }

  lemma {:induction false} BoundedSnoc(es: seq<Event>)
    requires es != []
    ensures BoundedThroughout(es) <==> BoundedThroughout(es[..|es| - 1]) && Bounded(Run(es))
  {
    var before := es[..|es| - 1];
    assert es[..|es|] == es;
    forall k | 0 <= k < |es|
      ensures es[..k] == before[..k]
    {
    }
  }

  /** Whenever a count is taken back that was never made, the counter goes round, and the next publish is
      given tag zero. */
  lemma {:induction false} TagZero(es: seq<Event>)
    requires Run(es).published == 0
    ensures var s := Run(es + [Unpublish] + [Publish]);
            s.published == 0 && 0 in s.d.pending
  {
    RunSnoc(es, Unpublish);
    RunSnoc(es + [Unpublish], Publish);
  }

  // ----- acks, closed or not -----

  /** Event `e` confirms handle `i` with `ack`: it names its tag, alone or among all up to its own, while the
      handle is pending. */
  predicate Answers(s: State, e: Event, i: nat, ack: bool) {
    && e.Begin? && s.phase.Idle? && e.conf.ack == ack && i < |s.d.handles| && IsPending(s.d, i)
    && (s.d.handles[i].tag == e.conf.tag || (e.multiple && s.d.handles[i].tag <= e.conf.tag))
  }

  function Answering(i: nat, ack: bool): (State, Event) -> bool {
    (s, e) => Answers(s, e, i, ack)
  }

  /** An event that neither confirms nor drops a handle leaves it alone; what it drops is nacked. */
  lemma {:induction false} HandleStep(s: State, e: Event, i: nat)
    requires DeferredInv(s.d) && i < |s.d.handles|
    ensures var h, r := s.d.handles[i], Step(s, e).d.handles;
            && i < |r|
            && (Answers(s, e, i, true) ==> r[i] == Handle(h.tag, 1, true))
            && (Answers(s, e, i, false) ==> r[i] == Handle(h.tag, 1, false))
            && (!Answers(s, e, i, true) && !Answers(s, e, i, false) ==>
                  r[i] == if IsPending(s.d, i) && (Dropped(s, e, h.tag)) then Handle(h.tag, 1, false) else h)
  {
    if e.Begin? && s.phase.Idle? {
      SettleTells(s.d, if e.multiple then PendingUpTo(s.d, e.conf.tag) else {e.conf.tag}, e.conf.ack, i);
    } else if e.Close? {
      SettleTells(s.d, s.d.pending.Keys, false, i);
    } else if e.Unpublish? {
      SettleTells(s.d, {s.published}, false, i);
    } else if e.Publish? {
      assert Add(s.d, Increment(s.published)).handles[i] == s.d.handles[i];
    } else {
      assert Step(s, e).d == s.d;
    }
  }

  /** A failed publish drops the last tag, and closing drops all of them. */
  predicate Dropped(s: State, e: Event, tag: nat) {
    (e.Unpublish? && tag == s.published) || (e.Close? && s.phase.Idle?)
  }

  lemma {:induction false} HandlesGrow(s: State, e: Event)
    ensures |s.d.handles| <= |Step(s, e).d.handles|
    ensures forall i | |s.d.handles| <= i < |Step(s, e).d.handles| ::
              Step(s, e).d.handles[i] == Handle(Increment(s.published), 0, false)
  {
    if !e.Publish? {
      assert |Step(s, e).d.handles| == |s.d.handles|;
    }
  }

  lemma {:induction false} NoneAnswered(es: seq<Event>, i: nat, ack: bool)
    requires |Run(es).d.handles| <= i
    ensures !Sometime(es, Answering(i, ack))
  {
    if es != [] {
      var before, e := es[..|es| - 1], es[|es| - 1];
      HandlesGrow(Run(before), e);
      NoneAnswered(before, i, ack);
      SometimeSnoc(es, Answering(i, ack));
      assert !Answering(i, ack)(Run(before), e);
    }
  }

  /** Over every run, closed or not, a handle holds an ack if and only if an ack named its tag while it was
      pending; whatever closing or a failed publish resolves holds a nack. */
  lemma {:induction false} AckTells(es: seq<Event>, i: nat)
    requires i < |Run(es).d.handles|
    ensures Run(es).d.handles[i].ack <==> Sometime(es, Answering(i, true))
  {
    var before, e := es[..|es| - 1], es[|es| - 1];
    var s := Run(before);
    RunKeeps(before);
    HandlesGrow(s, e);
    SometimeSnoc(es, Answering(i, true));
    assert Answering(i, true)(s, e) <==> Answers(s, e, i, true);
    if i < |s.d.handles| {
      AckTells(before, i);
      HandleStep(s, e, i);
    } else {
      NoneAnswered(before, i, true);
    }
  }

  /** Closing nacks what is pending, keeps what was resolved, and forgets the listeners. */
  lemma {:induction false} CloseNacks(es: seq<Event>, i: nat)
    requires Run(es).phase.Idle? && i < |Run(es).d.handles|
    ensures var s, s' := Run(es), Run(es + [Close]);
            && s'.d.pending == map[] && |s'.d.handles| == |s.d.handles| && s'.q.listeners == []
            && s'.d.handles[i] == if IsPending(s.d, i) then Handle(s.d.handles[i].tag, 1, false) else s.d.handles[i]
  {
    RunKeeps(es);
    RunSnoc(es, Close);
    HandleStep(Run(es), Close, i);
    var d := Run(es).d;
    assert d.pending - d.pending.Keys == map[];
  }
}
