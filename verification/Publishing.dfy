/** Publishing in confirm mode against shutdown and confirmations, in every interleaving. A publish holds
    the channel's lock from counting to returning; the closed flag, the confirm mode and the
    confirmations of the server change at any time. */
module Publishing {
  import opened Confirms
  import opened Options
  import Sequences

  /** Where the publish that holds the lock has got to, with its handle if it was counted. */
  datatype Stage =
    | Locked
    | Counted(handle: Option<nat>)
    | Cleared(handle: Option<nat>)
    | Succeeded(handle: Option<nat>)
    | Failed(handle: Option<nat>)

  /** `entry` and `table` are the counter and the deferred confirmations when the lock was taken,
      `settled` the tags that confirmations have named since. */
  datatype Publisher = Publisher(stage: Stage, entry: nat, table: Deferred, settled: set<nat>)

  /** A handle returned to the application, and the position of its message among the publishes written. */
  datatype Returned = Returned(handle: nat, position: nat)

  /** `wire` counts the basic.publish messages written on the channel; `dead` is a failed write or a
      closed connection, both permanent; `shut` that the channel's shutdown has run. */
  datatype State = State(published: nat, d: Deferred, confirming: bool, closed: bool, shut: bool, dead: bool,
                         wire: nat, holder: Option<Publisher>, returned: seq<Returned>)

  function Start(confirming: bool): State {
    State(0, NO_DEFERRED, confirming, false, false, false, 0, None, [])
  }

  datatype Event =
    | Acquire                                // ch.m.Lock
    | Count                                  // if ch.confirming { dc = ch.confirms.publish() }
    | CheckOpen                              // IsClosed in Channel.send and sendOpen
    | Transmit(ok: bool)                     // the frames of the message, and the flush
    | Finish                                 // unpublish on failure, then return and unlock
    | ConfirmMode                            // ch.confirming = true, by Confirm
    | Settled(tags: set<nat>, ack: bool)     // a confirmation from the server
    | MarkClosed                             // setClosed
    | Shutdown                               // the body of Channel.shutdown, under ch.m

  function Holding(s: State, stage: Stage): State
    requires s.holder.Some?
  {
    s.(holder := Some(s.holder.value.(stage := stage)))
  }

  function Release(s: State): State
    requires s.holder.Some?
  {
    match s.holder.value.stage
    case Succeeded(h) =>
      s.(holder := None, returned := if h.Some? then s.returned + [Returned(h.value, s.wire)] else s.returned)
    case Failed(_) =>
      if s.confirming
      then s.(holder := None, d := Remove(s.d, s.published), published := Decrement(s.published))
      else s.(holder := None)
    case _ => s
  }

  function WithSettled(s: State, tags: set<nat>): State {
    if s.holder.None? then s
    else s.(holder := Some(s.holder.value.(settled := s.holder.value.settled + tags)))
  }

  function Step(s: State, e: Event): State {
    match e
    case Acquire => if s.holder.None? then s.(holder := Some(Publisher(Locked, s.published, s.d, {}))) else s
    case Count =>
      if s.holder.None? || !s.holder.value.stage.Locked? then s
      else if s.confirming
      then Holding(s, Counted(Some(|s.d.handles|)))
             .(published := Increment(s.published), d := Add(s.d, Increment(s.published)))
      else Holding(s, Counted(None))
    case CheckOpen =>
      if s.holder.None? || !s.holder.value.stage.Counted? then s
      else Holding(s, if s.closed then Failed(s.holder.value.stage.handle) else Cleared(s.holder.value.stage.handle))
    case Transmit(ok) =>
      if s.holder.None? || !s.holder.value.stage.Cleared? then s
      else if ok && !s.dead then Holding(s, Succeeded(s.holder.value.stage.handle)).(wire := s.wire + 1)
      else Holding(s, Failed(s.holder.value.stage.handle)).(dead := true)
    case Finish => if s.holder.None? then s else Release(s)
    case ConfirmMode => s.(confirming := true)
    case Settled(tags, ack) => WithSettled(s, tags).(d := Resolve(s.d, tags, ack))
    case MarkClosed => s.(closed := true)
    case Shutdown =>
      if s.holder.None? && s.closed
      then s.(d := Settle(s.d, s.d.pending.Keys, false), shut := true) else s
  }

  function Run(confirming: bool, es: seq<Event>): State {
    if es == [] then Start(confirming) else Step(Run(confirming, es[..|es| - 1]), es[|es| - 1])
  }

  // ----- what every step keeps -----

  /** The handle of the publish that holds the lock, if it was counted. */
  function HandleOf(p: Publisher): Option<nat> {
    match p.stage
    case Locked => None
    case _ => p.stage.handle
  }

  /** Counter and table, as the holder of the lock left them: they are those that it found but for the
      confirmations since, and but for its own count. */
  ghost predicate HolderInv(s: State, p: Publisher) {
    && p.entry <= UINT64_MAX && |p.table.handles| <= |s.d.handles|
    && (forall i | 0 <= i < |p.table.handles| :: p.table.handles[i].tag in p.settled || s.d.handles[i] == p.table.handles[i])
    && match HandleOf(p)
       case None =>
         s.published == p.entry && |s.d.handles| == |p.table.handles| && s.d.pending == p.table.pending - p.settled
       case Some(h) =>
         && s.confirming && s.published == Increment(p.entry)
         && h == |p.table.handles| && |s.d.handles| == h + 1 && s.d.handles[h].tag == s.published
         && (if s.published in s.d.pending then s.d.pending[s.published] == h else s.d.handles[h].closes == 1)
         && s.d.pending - {s.published} == p.table.pending - p.settled - {s.published}
  }

  /** Nothing is counted before confirm mode is on. */
  ghost predicate ModeInv(s: State) {
    !s.confirming || (s.holder.Some? && !s.holder.value.stage.Locked? && HandleOf(s.holder.value).None?) ==>
      s.published == 0 && s.d.pending == map[] && s.d.handles == []
  }

  /** Once shutdown has run, nothing is pending but what the current holder of the lock has just added,
      and that holder cannot succeed. */
  ghost predicate ShutInv(s: State) {
    s.shut ==>
      && s.closed
      && (s.holder.None? ==> s.d.pending == map[])
      && (s.holder.Some? ==>
            match s.holder.value.stage
            case Locked => s.d.pending == map[]
            case Counted(h) => s.d.pending.Keys <= if h.Some? then {s.published} else {}
            case Failed(h) => s.d.pending.Keys <= if h.Some? then {s.published} else {}
            case _ => false)
  }

  ghost predicate Inv(s: State) {
    && s.published <= UINT64_MAX && DeferredInv(s.d) && ShutInv(s) && ModeInv(s)
    && (s.holder.Some? ==> HolderInv(s, s.holder.value))
  }

  lemma {:induction false} FinishKeeps(s: State)
    requires Inv(s) && s.holder.Some?
    ensures Inv(Release(s))
  {
    if s.holder.value.stage.Failed? && s.confirming {
      SettleKeeps(s.d, {s.published}, false);
      assert s.shut ==> Release(s).d.pending == map[];
    }
  }

  lemma {:induction false} AcquireKeeps(s: State)
    requires Inv(s)
    ensures Inv(Step(s, Acquire))
  {
    assert s.d.pending - {} == s.d.pending;
  }

  lemma {:induction false} CountKeeps(s: State)
    requires Inv(s)
    ensures Inv(Step(s, Count))
  {
    AddKeeps(s.d, Increment(s.published));
    var s' := Step(s, Count);
    if s.holder.Some? && s.holder.value.stage.Locked? && s.confirming {
      CountedHolder(s, s.holder.value);
      assert s'.holder == Some(s.holder.value.(stage := Counted(Some(|s.d.handles|))));
    }
  }

  lemma {:induction false} CountedHolder(s: State, p: Publisher)
    requires HolderInv(s, p) && p.stage.Locked? && s.confirming
    ensures HolderInv(s.(published := Increment(s.published), d := Add(s.d, Increment(s.published))),
                      p.(stage := Counted(Some(|s.d.handles|))))
  {
    var tag := Increment(s.published);
    assert Add(s.d, tag).pending - {tag} == s.d.pending - {tag};
  }

  lemma {:induction false} SettledHolder(s: State, p: Publisher, tags: set<nat>, ack: bool)
    requires HolderInv(s, p) && DeferredInv(s.d)
    ensures HolderInv(s.(d := Resolve(s.d, tags, ack)), p.(settled := p.settled + tags))
  {
    assert p.table.pending - p.settled - tags == p.table.pending - (p.settled + tags);
    if HandleOf(p).Some? {
      SettledPending(s.d.pending, p.table.pending, p.settled, tags, {s.published});
    }
  }

  lemma {:induction false} SettledPending(now: map<nat, nat>, before: map<nat, nat>, settled: set<nat>, tags: set<nat>, own: set<nat>)
    requires now - own == before - settled - own
    ensures now - tags - own == before - (settled + tags) - own
  {
    assert now - tags - own == now - own - tags;
    assert before - settled - own - tags == before - (settled + tags) - own;
  }

  lemma {:induction false} SettledKeeps(s: State, tags: set<nat>, ack: bool)
    requires Inv(s)
    ensures Inv(Step(s, Settled(tags, ack)))
  {
    ResolveKeeps(s.d, tags, ack);
    SettledRest(s, tags, ack);
    if s.holder.Some? {
      var p, s1 := s.holder.value, s.(d := Resolve(s.d, tags, ack));
      SettledHolder(s, p, tags, ack);
      SameHolder(s1, Step(s, Settled(tags, ack)), p.(settled := p.settled + tags), p.(settled := p.settled + tags));
    }
  }

  lemma {:induction false} SettledRest(s: State, tags: set<nat>, ack: bool)
    requires ShutInv(s) && ModeInv(s)
    ensures ShutInv(Step(s, Settled(tags, ack))) && ModeInv(Step(s, Settled(tags, ack)))
  {
    assert Resolve(s.d, tags, ack).pending.Keys <= s.d.pending.Keys;
    assert s.d.pending == map[] ==> Resolve(s.d, tags, ack).pending == map[];
  }

  lemma {:induction false} ShutdownKeeps(s: State)
    requires Inv(s)
    ensures Inv(Step(s, Shutdown))
  {
    SettleKeeps(s.d, s.d.pending.Keys, false);
    assert s.d.pending - s.d.pending.Keys == map[];
  }

  lemma {:induction false} InvKeeps(s: State, e: Event)
    requires Inv(s)
    ensures Inv(Step(s, e))
  {
    match e
    case Acquire =>
      AcquireKeeps(s);
    case Count =>
      CountKeeps(s);
    case Finish =>
      if s.holder.Some? {
        FinishKeeps(s);
      }
    case Settled(tags, ack) =>
      SettledKeeps(s, tags, ack);
    case Shutdown =>
      ShutdownKeeps(s);
    case CheckOpen =>
      SendKeeps(s, e);
    case Transmit(_) =>
      SendKeeps(s, e);
    case _ =>
      FlagKeeps(s, e);
  }

  lemma {:induction false} SameHolder(s: State, s': State, p: Publisher, p': Publisher)
    requires HolderInv(s, p) && s'.d == s.d && s'.published == s.published && (s.confirming ==> s'.confirming)
    requires HandleOf(p') == HandleOf(p) && p'.table == p.table && p'.settled == p.settled && p'.entry == p.entry
    ensures HolderInv(s', p')
  {
  }

  /** The holder gets on; counter and table stay. */
  lemma {:induction false} StageKeeps(s: State, stage: Stage, dead: bool, wire: nat)
    requires Inv(s) && s.holder.Some? && !s.holder.value.stage.Locked? && !stage.Locked?
    requires stage.handle == s.holder.value.stage.handle && (s.shut ==> stage.Failed?)
    ensures Inv(Holding(s, stage).(dead := dead, wire := wire))
  {
    var s' := Holding(s, stage).(dead := dead, wire := wire);
    var p, p' := s.holder.value, s'.holder.value;
    assert HandleOf(p') == HandleOf(p);
    SameHolder(s, s', p, p');
  }

  lemma {:induction false} SendKeeps(s: State, e: Event)
    requires Inv(s) && (e.CheckOpen? || e.Transmit?)
    ensures Inv(Step(s, e))
  {
    var s' := Step(s, e);
    if s' != s {
      StageKeeps(s, s'.holder.value.stage, s'.dead, s'.wire);
    }
  }

  lemma {:induction false} FlagKeeps(s: State, e: Event)
    requires Inv(s) && (e.ConfirmMode? || e.MarkClosed?)
    ensures Inv(Step(s, e))
  {
    if s.holder.Some? {
      SameHolder(s, Step(s, e), s.holder.value, s.holder.value);
    }
  }

  lemma {:induction false} RunInv(confirming: bool, es: seq<Event>)
    ensures Inv(Run(confirming, es))
  {
    if es != [] {
      RunInv(confirming, es[..|es| - 1]);
      InvKeeps(Run(confirming, es[..|es| - 1]), es[|es| - 1]);
    }
  }

  // ----- tags that come up again -----

  /** A publish is given a tag that is still pending. */
  predicate Reuses(s: State, e: Event) {
    e.Count? && s.holder.Some? && s.holder.value.stage.Locked? && s.confirming && Increment(s.published) in s.d.pending
  }

  /** Some event of the run was given a tag that was still pending. */
  ghost predicate Reused(confirming: bool, es: seq<Event>) {
    exists k :: ReusesAt(confirming, es, k)
  }

  ghost predicate ReusesAt(confirming: bool, es: seq<Event>, k: nat) {
    k < |es| && Reuses(Run(confirming, es[..k]), es[k])
  }

  lemma {:induction false} ReusedSnoc(confirming: bool, es: seq<Event>)
    requires es != []
    ensures var before, e := es[..|es| - 1], es[|es| - 1];
            Reused(confirming, es) <==> Reused(confirming, before) || Reuses(Run(confirming, before), e)
  {
    var before, e := es[..|es| - 1], es[|es| - 1];
    if k: nat :| ReusesAt(confirming, es, k) {
      assert k < |before| ==> before[..k] == es[..k] && ReusesAt(confirming, before, k);
    }
    if k: nat :| ReusesAt(confirming, before, k) {
      assert before[..k] == es[..k] && ReusesAt(confirming, es, k);
    }
    if Reuses(Run(confirming, before), e) {
      assert ReusesAt(confirming, es, |es| - 1);
    }
  }

  lemma {:induction false} ForgottenStep(s: State, e: Event)
    requires Inv(s)
    ensures NoneForgotten(Step(s, e).d) <==> NoneForgotten(s.d) && !Reuses(s, e)
  {
    if e.Count? {
      AddForgets(s.d, Increment(s.published));
    } else if e.Finish? {
      SettleKeeps(s.d, {s.published}, false);
    } else if e.Settled? {
      ResolveKeeps(s.d, e.tags, e.ack);
    } else if e.Shutdown? {
      SettleKeeps(s.d, s.d.pending.Keys, false);
    } else {
      assert Step(s, e).d == s.d;
    }
  }

  lemma {:induction false} ForgottenTells(confirming: bool, es: seq<Event>)
    ensures NoneForgotten(Run(confirming, es).d) <==> !Reused(confirming, es)
  {
    if es != [] {
      var before := es[..|es| - 1];
      ForgottenTells(confirming, before);
      RunInv(confirming, before);
      ForgottenStep(Run(confirming, before), es[|es| - 1]);
      ReusedSnoc(confirming, es);
    }
  }

  predicate IsCount(e: Event) {
    e.Count?
  }

  /** No tag that is pending, or was when the holder took the lock, is as old as `n`. */
  ghost predicate RecentInv(s: State, n: nat) {
    Recent(s.d, s.published, n) && (s.holder.Some? ==> Recent(s.holder.value.table, s.holder.value.entry, n))
  }

  lemma {:induction false} RecentStep(s: State, e: Event, n: nat)
    requires RecentInv(s, n) && (e.Count? ==> n <= UINT64_MAX)
    ensures RecentInv(Step(s, e), if e.Count? then n + 1 else n) && !Reuses(s, e)
  {
    if e.Count? {
      AddRecent(s.d, s.published, n);
    } else if e.Finish? {
      RemoveRecent(s.d, s.published, n);
    } else {
      assert Step(s, e).d.pending.Keys <= s.d.pending.Keys;
    }
  }

  /** That takes 2^64 publishes. */
  lemma {:induction false} NoReuse(confirming: bool, es: seq<Event>)
    requires Sequences.Count(es, IsCount) <= UINT64_MAX
    ensures !Reused(confirming, es)
    ensures RecentInv(Run(confirming, es), Sequences.Count(es, IsCount))
  {
    if es != [] {
      var before := es[..|es| - 1];
      NoReuse(confirming, before);
      RecentStep(Run(confirming, before), es[|es| - 1], Sequences.Count(before, IsCount));
      ReusedSnoc(confirming, es);
    }
  }

  // ----- acks -----

  /** Event `e` confirms handle `i` with `ack`: the server names its tag while it is pending. */
  predicate Answers(s: State, e: Event, i: nat, ack: bool) {
    e.Settled? && e.ack == ack && i < |s.d.handles| && s.d.handles[i].tag in e.tags && IsPending(s.d, i)
  }

  ghost predicate AnswersAt(confirming: bool, es: seq<Event>, k: nat, i: nat, ack: bool) {
    k < |es| && Answers(Run(confirming, es[..k]), es[k], i, ack)
  }

  /** Some event of the run confirms handle `i` with `ack`. */
  ghost predicate Answered(confirming: bool, es: seq<Event>, i: nat, ack: bool) {
    exists k :: AnswersAt(confirming, es, k, i, ack)
  }

  lemma {:induction false} AnsweredSnoc(confirming: bool, es: seq<Event>, i: nat, ack: bool)
    requires es != []
    ensures var before, e := es[..|es| - 1], es[|es| - 1];
            Answered(confirming, es, i, ack)
            <==> Answered(confirming, before, i, ack) || Answers(Run(confirming, before), e, i, ack)
  {
    var before, e := es[..|es| - 1], es[|es| - 1];
    if k: nat :| AnswersAt(confirming, es, k, i, ack) {
      assert k < |before| ==> before[..k] == es[..k] && AnswersAt(confirming, before, k, i, ack);
    }
    if k: nat :| AnswersAt(confirming, before, k, i, ack) {
      assert before[..k] == es[..k] && AnswersAt(confirming, es, k, i, ack);
    }
    if Answers(Run(confirming, before), e, i, ack) {
      assert AnswersAt(confirming, es, |es| - 1, i, ack);
    }
  }

  /** The handles that an event resolves, and with what ack. */
  function Resolves(s: State, e: Event, i: nat): Option<bool>
    requires i < |s.d.handles|
  {
    if !IsPending(s.d, i) then None
    else if e.Settled? && s.d.handles[i].tag in e.tags then Some(e.ack)
    else if e.Shutdown? && s.holder.None? && s.closed then Some(false)
    else if e.Finish? && s.holder.Some? && s.holder.value.stage.Failed? && s.confirming && s.d.handles[i].tag == s.published
    then Some(false)
    else None
  }

  ghost predicate ResolvedBy(s: State, e: Event, i: nat)
    requires i < |s.d.handles|
  {
    && i < |Step(s, e).d.handles|
    && Step(s, e).d.handles[i]
       == match Resolves(s, e, i)
          case None => s.d.handles[i]
          case Some(ack) => Handle(s.d.handles[i].tag, 1, ack)
  }

  lemma {:induction false} FinishResolves(s: State, i: nat)
    requires Inv(s) && i < |s.d.handles|
    ensures ResolvedBy(s, Finish, i)
  {
    SettleTells(s.d, {s.published}, false, i);
  }

  /** An event changes exactly the handles that it resolves. */
  lemma {:induction false} ResolvesTells(s: State, e: Event, i: nat)
    requires Inv(s) && i < |s.d.handles|
    ensures ResolvedBy(s, e, i)
  {
    if e.Settled? {
      SettleTells(s.d, e.tags, e.ack, i);
    } else if e.Shutdown? {
      SettleTells(s.d, s.d.pending.Keys, false, i);
    } else if e.Finish? {
      FinishResolves(s, i);
    } else if e.Count? {
      assert Add(s.d, Increment(s.published)).handles[i] == s.d.handles[i];
    } else {
      assert Step(s, e).d == s.d;
    }
  }

  /** A new handle is unresolved. */
  lemma {:induction false} NewHandle(s: State, e: Event, i: nat)
    requires Inv(s) && |s.d.handles| <= i < |Step(s, e).d.handles|
    ensures Step(s, e).d.handles[i] == Handle(Increment(s.published), 0, false)
  {
    assert e.Count?;
  }

  lemma {:induction false} NoneAnswered(confirming: bool, es: seq<Event>, i: nat, ack: bool)
    requires |Run(confirming, es).d.handles| <= i
    ensures !Answered(confirming, es, i, ack)
  {
    if es != [] {
      var before := es[..|es| - 1];
      TagsKept(Run(confirming, before), es[|es| - 1]);
      NoneAnswered(confirming, before, i, ack);
      AnsweredSnoc(confirming, es, i, ack);
    }
  }

  /** Over every run a handle holds an ack if and only if the server acked its tag while it was pending; so
      one that a shutdown or a failed publish resolved holds a nack. */
  lemma {:induction false} AckTells(confirming: bool, es: seq<Event>, i: nat)
    requires i < |Run(confirming, es).d.handles|
    ensures Run(confirming, es).d.handles[i].ack <==> Answered(confirming, es, i, true)
    ensures Run(confirming, es).d.handles[i].closes == 0 ==>
              !Answered(confirming, es, i, true) && !Answered(confirming, es, i, false)
  {
    var before, e := es[..|es| - 1], es[|es| - 1];
    var s := Run(confirming, before);
    RunInv(confirming, before);
    AnsweredSnoc(confirming, es, i, true);
    AnsweredSnoc(confirming, es, i, false);
    if i < |s.d.handles| {
      AckTells(confirming, before, i);
      ResolvesTells(s, e, i);
    } else {
      NoneAnswered(confirming, before, i, true);
      NoneAnswered(confirming, before, i, false);
      NewHandle(s, e, i);
    }
  }

  lemma {:induction false} RunSnoc(confirming: bool, es: seq<Event>, e: Event)
    ensures Run(confirming, es + [e]) == Step(Run(confirming, es), e)
  {
    assert (es + [e])[..|es|] == es;
  }

  /** Whatever was still pending when the channel shuts down is resolved with a nack, and every handle that
      was resolved before keeps its ack. */
  lemma {:induction false} ShutdownNacks(confirming: bool, es: seq<Event>, i: nat)
    requires var s := Run(confirming, es);
             s.closed && s.holder.None? && i < |s.d.handles|
    ensures var s, s' := Run(confirming, es), Run(confirming, es + [Shutdown]);
            && s'.shut && s'.d.pending == map[] && |s'.d.handles| == |s.d.handles|
            && s'.d.handles[i] == if IsPending(s.d, i) then Handle(s.d.handles[i].tag, 1, false) else s.d.handles[i]
  {
    RunInv(confirming, es);
    RunSnoc(confirming, es, Shutdown);
    ResolvesTells(Run(confirming, es), Shutdown, i);
    var d := Run(confirming, es).d;
    assert d.pending - d.pending.Keys == map[];
  }

  // ----- shutdown and failure -----

  /** A failed write, or a connection found closed, is final: nothing is published any more. */
  lemma {:induction false} NothingAfterFailure(confirming: bool, es: seq<Event>, more: seq<Event>)
    requires Run(confirming, es).dead
    ensures Run(confirming, es + more).dead && Run(confirming, es + more).wire == Run(confirming, es).wire
  {
    if more == [] {
      assert es + more == es;
    } else {
      var most, e := more[..|more| - 1], more[|more| - 1];
      NothingAfterFailure(confirming, es, most);
      Sequences.SplitLast(more);
      Sequences.ConcatAssoc(es, most, [e]);
      RunSnoc(confirming, es + most, e);
      DeadStep(Run(confirming, es + most), e);
    }
  }

  lemma {:induction false} DeadStep(s: State, e: Event)
    requires s.dead
    ensures Step(s, e).dead && Step(s, e).wire == s.wire
  {
  }

  ghost predicate AllResolved(d: Deferred) {
    forall i | 0 <= i < |d.handles| :: d.handles[i].closes == 1
  }

  /** Whatever races with it, once the channel has shut down every handle ever made is resolved, exactly
      once, whenever no publish holds the lock, if and only if no publish was ever given a tag that was
      still pending; which takes 2^64 publishes. */
  lemma {:induction false} NoHandleLeftWaiting(confirming: bool, es: seq<Event>)
    requires Run(confirming, es).shut && Run(confirming, es).holder.None?
    ensures AllResolved(Run(confirming, es).d) <==> !Reused(confirming, es)
    ensures Sequences.Count(es, IsCount) <= UINT64_MAX ==> AllResolved(Run(confirming, es).d)
  {
    RunInv(confirming, es);
    ForgottenTells(confirming, es);
    var d := Run(confirming, es).d;
    assert forall i | 0 <= i < |d.handles| :: Remembered(d, i) <==> d.handles[i].closes == 1;
    if Sequences.Count(es, IsCount) <= UINT64_MAX {
      NoReuse(confirming, es);
    }
  }

  /** What Finish does for a publish that failed. */
  lemma {:induction false} FinishFailed(s: State)
    requires Inv(s) && s.holder.Some? && s.holder.value.stage.Failed?
    ensures var p, s' := s.holder.value, Step(s, Finish);
            var before, handle := p.table.pending - p.settled, p.stage.handle;
            && (s'.published == p.entry <==> (s.confirming ==> handle.Some?))
            && (s.confirming && handle.None? ==> s'.published == UINT64_MAX)
            && (s'.d.pending == before <==> (handle.Some? ==> Increment(p.entry) !in before))
            && |s'.d.handles| == |s.d.handles|
            && (handle.Some? ==>
                  && handle.value < |s.d.handles| && s'.d.handles[handle.value].closes == 1
                  && (s.d.handles[handle.value].closes == 0 ==> !s'.d.handles[handle.value].ack))
            && (forall i | 0 <= i < |s.d.handles| && Some(i) != handle :: s'.d.handles[i] == s.d.handles[i])
  {
    var p, s' := s.holder.value, Step(s, Finish);
    if p.stage.handle.Some? {
      assert s'.d.pending == s.d.pending - {s.published};
    } else if s.confirming {
      assert s'.d.pending == map[];
    }
  }

  /** A failed publish leaves the counter as it found it, unless confirm mode was switched on after the
      publish looked: then it takes back a count that was never made, and the counter goes round. It leaves
      the pending map as it found it, less what was confirmed in the meantime, unless its tag was pending
      before, which takes 2^64 publishes; it resolves its own handle once and leaves all others alone. */
  lemma {:induction false} FailedPublishRestores(confirming: bool, es: seq<Event>)
    requires Run(confirming, es).holder.Some? && Run(confirming, es).holder.value.stage.Failed?
    ensures var s := Run(confirming, es);
            var p, s' := s.holder.value, Step(s, Finish);
            var before, handle := p.table.pending - p.settled, p.stage.handle;
            && (s'.published == p.entry <==> (s.confirming ==> handle.Some?))
            && (s.confirming && handle.None? ==> s'.published == UINT64_MAX)
            && (s'.d.pending == before <==> (handle.Some? ==> Increment(p.entry) !in before))
            && (Sequences.Count(es, IsCount) <= UINT64_MAX ==> s'.d.pending == before)
            && |s'.d.handles| == |s.d.handles|
            && (handle.Some? ==>
                  && handle.value < |s.d.handles| && s'.d.handles[handle.value].closes == 1
                  && (s.d.handles[handle.value].closes == 0 ==> !s'.d.handles[handle.value].ack))
            && (forall i | 0 <= i < |s.d.handles| && Some(i) != handle :: s'.d.handles[i] == s.d.handles[i])
  {
    RunInv(confirming, es);
    var s := Run(confirming, es);
    FinishFailed(s);
    if Sequences.Count(es, IsCount) <= UINT64_MAX {
      NoReuse(confirming, es);
      AddRecentAtEntry(s.holder.value, Sequences.Count(es, IsCount));
    }
  }

  lemma {:induction false} AddRecentAtEntry(p: Publisher, n: nat)
    requires Recent(p.table, p.entry, n) && n <= UINT64_MAX
    ensures Increment(p.entry) !in p.table.pending - p.settled
  {
    AddRecent(p.table, p.entry, n);
  }

  /** The exception is reachable, and the counter then wraps around below zero. */
  lemma {:induction false} CounterCanUnderflow()
    ensures Run(false, [Acquire, Count, ConfirmMode, MarkClosed, CheckOpen, Finish]).published == UINT64_MAX
  {
    var e1 := [Acquire];
    var e2 := [Acquire, Count];
    var e3 := [Acquire, Count, ConfirmMode];
    var e4 := [Acquire, Count, ConfirmMode, MarkClosed];
    var e5 := [Acquire, Count, ConfirmMode, MarkClosed, CheckOpen];
    var e6 := [Acquire, Count, ConfirmMode, MarkClosed, CheckOpen, Finish];
    assert e1[..0] == [] && e2[..1] == e1 && e3[..2] == e2 && e4[..3] == e3 && e5[..4] == e4 && e6[..5] == e5;
    var p := Publisher(Counted(None), 0, NO_DEFERRED, {});
    assert Run(false, e2).holder == Some(p);
    assert Run(false, e4).confirming && Run(false, e4).closed && Run(false, e4).holder == Some(p);
    assert Run(false, e5).holder == Some(p.(stage := Failed(None)));
  }

  // ----- delivery tags are positions on the wire -----

  /** The counter after `n` publishes. */
  function Wrapped(n: nat): nat {
    n % (UINT64_MAX + 1)
  }

  lemma {:induction false} WrappedNext(n: nat)
    ensures Wrapped(n) <= UINT64_MAX
    ensures Wrapped(n + 1) == Increment(Wrapped(n)) && Wrapped(n) == Decrement(Wrapped(n + 1))
  {
    var m := UINT64_MAX + 1;
    assert n == m * (n / m) + Wrapped(n);
    if Wrapped(n) == UINT64_MAX {
      assert n + 1 == m * (n / m + 1);
    } else {
      assert n + 1 == m * (n / m) + (Wrapped(n) + 1);
    }
  }

  ghost predicate TagInv(s: State) {
    && s.confirming && CounterInv(s)
    && forall i | 0 <= i < |s.returned| ::
         && s.returned[i].handle < |s.d.handles|
         && s.d.handles[s.returned[i].handle].tag == Wrapped(s.returned[i].position)
  }

  ghost predicate Tagged(s: State, h: Option<nat>) {
    h.Some? && h.value < |s.d.handles| && s.d.handles[h.value].tag == s.published
  }

  lemma {:induction false} TagKeeps(s: State, e: Event)
    requires TagInv(s)
    ensures TagInv(Step(s, e))
  {
    TagsKept(s, e);
    WrappedNext(s.wire);
    if e.Finish? {
      var s' := Step(s, e);
      assert s'.returned[..|s.returned|] == s.returned;
    } else {
      TagStep(s, e);
      WireStep(s, e);
    }
  }

  /** The counter against the wire, apart from what was returned. */
  ghost predicate CounterInv(s: State) {
    match s.holder
    case None => s.published == Wrapped(s.wire)
    case Some(p) =>
      match p.stage
      case Locked => s.published == Wrapped(s.wire)
      case Succeeded(h) => s.published == Wrapped(s.wire) && Tagged(s, h)
      case _ => s.published == Wrapped(s.wire + 1) && Tagged(s, p.stage.handle)
  }

  lemma {:induction false} TagStep(s: State, e: Event)
    requires s.confirming && CounterInv(s) && !e.Finish?
    ensures Step(s, e).confirming && CounterInv(Step(s, e))
  {
    TagsKept(s, e);
    WrappedNext(s.wire);
  }

  lemma {:induction false} TagsKept(s: State, e: Event)
    ensures |s.d.handles| <= |Step(s, e).d.handles|
    ensures forall i | 0 <= i < |s.d.handles| :: Step(s, e).d.handles[i].tag == s.d.handles[i].tag
  {
  }

  /** In confirm mode, the tag in the handle of every successful publish is the position of its message
      among the basic.publish messages on the channel's wire, as far as a counter of 64 bits can tell. */
  lemma {:induction false} TagIsPosition(es: seq<Event>, i: nat)
    requires i < |Run(true, es).returned|
    ensures var s := Run(true, es);
            && s.returned[i].handle < |s.d.handles|
            && s.d.handles[s.returned[i].handle].tag == Wrapped(s.returned[i].position)
            && s.returned[i].position == i + 1 <= s.wire
  {
    TagRun(es);
    PositionsOnWire(es);
  }

  lemma {:induction false} TagRun(es: seq<Event>)
    ensures TagInv(Run(true, es))
  {
    if es != [] {
      TagRun(es[..|es| - 1]);
      TagKeeps(Run(true, es[..|es| - 1]), es[|es| - 1]);
    }
  }

  /** The first publishes on the wire have returned, in order. */
  ghost predicate InOrder(returned: seq<Returned>, n: nat) {
    |returned| == n && forall i | 0 <= i < n :: returned[i].position == i + 1
  }

  predicate JustSent(s: State) {
    s.holder.Some? && s.holder.value.stage.Succeeded?
  }

  /** Every publish on the wire has returned, but for the one that holds the lock. */
  ghost predicate WireInv(s: State) {
    if JustSent(s) then s.wire > 0 && InOrder(s.returned, s.wire - 1) else InOrder(s.returned, s.wire)
  }

  lemma {:induction false} WireKeeps(s: State, e: Event)
    requires WireInv(s) && s.confirming && CounterInv(s)
    ensures WireInv(Step(s, e))
  {
    if !e.Finish? {
      WireStep(s, e);
    }
  }

  lemma {:induction false} WireStep(s: State, e: Event)
    requires !e.Finish?
    ensures var s' := Step(s, e);
            && s'.returned == s.returned
            && if s'.wire == s.wire then JustSent(s') <==> JustSent(s)
               else s'.wire == s.wire + 1 && !JustSent(s) && JustSent(s')
  {
    match e
    case Transmit(_) =>
    case Settled(_, _) =>
    case CheckOpen =>
    case _ =>
  }

  /** Every publish on the wire returns its handle, in wire order. */
  lemma {:induction false} PositionsOnWire(es: seq<Event>)
    ensures WireInv(Run(true, es))
  {
    if es != [] {
      PositionsOnWire(es[..|es| - 1]);
      TagRun(es[..|es| - 1]);
      WireKeeps(Run(true, es[..|es| - 1]), es[|es| - 1]);
    }
  }
}
