/** Publisher confirms: the table of deferred confirmations and the resequencer, as functions on values. */
module Confirms {

  datatype Confirmation = Confirmation(tag: nat, ack: bool)

  const UINT64_MAX: nat := 0xFFFF_FFFF_FFFF_FFFF

  /** published++ on an unsigned counter of 64 bits. */
  function Increment(published: nat): nat {
    if published == UINT64_MAX then 0 else published + 1
  }

  /** published-- on the same. */
  function Decrement(published: nat): nat {
    if published == 0 then UINT64_MAX else published - 1
  }

  // ----- deferred confirmations -----

  /** A DeferredConfirmation; `closes` counts how often its done channel was closed. */
  datatype Handle = Handle(tag: nat, closes: nat, ack: bool)

  /** `pending` maps a tag to its handle; `resolved` records which handle a confirmation resolved. */
  datatype Deferred = Deferred(pending: map<nat, nat>, handles: seq<Handle>, resolved: map<nat, nat>)

  const NO_DEFERRED: Deferred := Deferred(map[], [], map[])

  function Add(d: Deferred, tag: nat): Deferred {
    d.(pending := d.pending[tag := |d.handles|], handles := d.handles + [Handle(tag, 0, false)])
  }

  /** setAck on every pending handle whose tag is in `tags`. */
  function Settle(d: Deferred, tags: set<nat>, ack: bool): Deferred {
    d.(pending := d.pending - tags,
       handles := seq(|d.handles|, i requires 0 <= i < |d.handles| =>
                    var h := d.handles[i];
                    if h.tag in tags && h.tag in d.pending && d.pending[h.tag] == i
                    then Handle(h.tag, h.closes + 1, ack) else h))
  }

  function Remove(d: Deferred, tag: nat): Deferred {
    Settle(d, {tag}, false)
  }

  /** Confirm and ConfirmMultiple: settle the tags and remember which handles that was. */
  function Resolve(d: Deferred, tags: set<nat>, ack: bool): Deferred {
    Settle(d, tags, ack).(resolved := map t | t in d.resolved.Keys + d.pending.Keys * tags ::
                                        if t in d.pending && t in tags then d.pending[t] else d.resolved[t])
  }

  function PendingUpTo(d: Deferred, tag: nat): set<nat> {
    set t | t in d.pending && t <= tag
  }

  /** Every pending tag stands for an unresolved handle of that tag; no handle is ever closed twice. */
  ghost predicate DeferredInv(d: Deferred) {
    && (forall t | t in d.pending ::
          d.pending[t] < |d.handles| && d.handles[d.pending[t]] == Handle(t, 0, false))
    && (forall i | 0 <= i < |d.handles| :: d.handles[i].closes <= 1)
    && (forall t | t in d.resolved ::
          d.resolved[t] < |d.handles| && d.handles[d.resolved[t]].tag == t && d.handles[d.resolved[t]].closes == 1)
  }

  /** Every unresolved handle is pending, so something can still resolve it. */
  ghost predicate NoneForgotten(d: Deferred) {
    forall i | 0 <= i < |d.handles| :: Remembered(d, i)
  }

  ghost predicate Remembered(d: Deferred, i: nat)
    requires i < |d.handles|
  {
    d.handles[i].closes == 0 ==> d.handles[i].tag in d.pending && d.pending[d.handles[i].tag] == i
  }

  lemma {:induction false} AddKeeps(d: Deferred, tag: nat)
    requires DeferredInv(d)
    ensures DeferredInv(Add(d, tag))
  {
  }

  /** A new handle pushes out the one that was pending under its tag, if any. */
  lemma {:induction false} AddForgets(d: Deferred, tag: nat)
    requires DeferredInv(d)
    ensures NoneForgotten(Add(d, tag)) <==> NoneForgotten(d) && tag !in d.pending
  {
    var a := Add(d, tag);
    if tag in d.pending {
      assert !Remembered(a, d.pending[tag]);
    } else {
      forall i | 0 <= i < |d.handles|
        ensures Remembered(a, i) <==> Remembered(d, i)
      {
      }
    }
    forall i | 0 <= i < |d.handles|
      ensures Remembered(a, i) ==> Remembered(d, i)
    {
    }
  }

  lemma {:induction false} SettleKeeps(d: Deferred, tags: set<nat>, ack: bool)
    requires DeferredInv(d)
    ensures DeferredInv(Settle(d, tags, ack))
    ensures NoneForgotten(Settle(d, tags, ack)) <==> NoneForgotten(d)
  {
    SettleForgets(d, tags, ack);
  }

  lemma {:induction false} SettleForgets(d: Deferred, tags: set<nat>, ack: bool)
    requires DeferredInv(d)
    ensures NoneForgotten(Settle(d, tags, ack)) <==> NoneForgotten(d)
  {
    var r := Settle(d, tags, ack);
    forall i | 0 <= i < |d.handles|
      ensures Remembered(r, i) <==> Remembered(d, i)
    {
    }
  }

  lemma {:induction false} ResolveKeeps(d: Deferred, tags: set<nat>, ack: bool)
    requires DeferredInv(d)
    ensures DeferredInv(Resolve(d, tags, ack))
    ensures NoneForgotten(Resolve(d, tags, ack)) <==> NoneForgotten(d)
  {
    SettleKeeps(d, tags, ack);
    var r := Resolve(d, tags, ack);
    forall i | 0 <= i < |d.handles|
      ensures Remembered(r, i) <==> Remembered(Settle(d, tags, ack), i)
    {
    }
    forall t | t in r.resolved
      ensures r.resolved[t] < |r.handles| && r.handles[r.resolved[t]].tag == t && r.handles[r.resolved[t]].closes == 1
    {
      if t in d.pending && t in tags {
        assert r.handles[d.pending[t]].closes == 1;
      }
    }
  }

  /** Settling gives each pending handle that is named the ack, and leaves all other handles alone. */
  lemma {:induction false} SettleTells(d: Deferred, tags: set<nat>, ack: bool, i: nat)
    requires DeferredInv(d) && i < |d.handles|
    ensures i < |Settle(d, tags, ack).handles|
    ensures Settle(d, tags, ack).handles[i]
            == if IsPending(d, i) && d.handles[i].tag in tags then Handle(d.handles[i].tag, 1, ack) else d.handles[i]
  {
  }

  /** Handle `i` is what the pending map holds under its tag. */
  predicate IsPending(d: Deferred, i: nat)
    requires i < |d.handles|
  {
    d.handles[i].tag in d.pending && d.pending[d.handles[i].tag] == i
  }

  /** A publish that is taken back after some confirmations came in leaves counter and pending map as
      those confirmations alone would, resolves its own handle once, and touches no other. */
  lemma {:induction false} AddRemove(d: Deferred, published: nat, tags: set<nat>, ack: bool)
    requires DeferredInv(d) && published <= UINT64_MAX && Increment(published) !in d.pending
    ensures var tag := Increment(published);
            var r := Remove(Resolve(Add(d, tag), tags, ack), tag);
            && Decrement(tag) == published
            && r.pending == d.pending - tags
            && |r.handles| == |d.handles| + 1 && r.handles[..|d.handles|] == Resolve(d, tags, ack).handles
            && r.handles[|d.handles|] == Handle(tag, 1, tag in tags && ack)
  {
    var tag := Increment(published);
    var a := Add(d, tag);
    var m := Resolve(a, tags, ack);
    var r := Remove(m, tag);
    assert r.pending == d.pending - tags;
    forall i | 0 <= i < |d.handles|
      ensures r.handles[i] == Resolve(d, tags, ack).handles[i]
    {
      AddRemoveOther(d, tag, tags, ack, i);
    }
  }

  lemma {:induction false} AddRemoveOther(d: Deferred, tag: nat, tags: set<nat>, ack: bool, i: nat)
    requires DeferredInv(d) && tag !in d.pending && i < |d.handles|
    ensures Remove(Resolve(Add(d, tag), tags, ack), tag).handles[i] == Resolve(d, tags, ack).handles[i]
  {
    var a := Add(d, tag);
    assert a.handles[i] == d.handles[i];
    assert d.handles[i].tag == tag ==> a.pending[tag] != i;
  }

  // ----- how old a tag is -----

  /** How far the counter has gone, all the way round if need be, since it stood at `t`. */
  function Age(t: nat, published: nat): int {
    if t <= published then published - t else published + (UINT64_MAX + 1) - t
  }

  /** The counter is within range and no pending tag is as old as `n`. */
  ghost predicate Recent(d: Deferred, published: nat, n: nat) {
    published <= UINT64_MAX && forall t | t in d.pending :: t <= UINT64_MAX && Age(t, published) < n
  }

  /** Before the counter has gone all the way round no pending tag comes up again. */
  lemma {:induction false} AddRecent(d: Deferred, published: nat, n: nat)
    requires Recent(d, published, n) && n <= UINT64_MAX
    ensures Increment(published) !in d.pending
    ensures Recent(Add(d, Increment(published)), Increment(published), n + 1)
  {
    var next := Increment(published);
    assert Age(next, published) == UINT64_MAX;
    forall t | t in d.pending
      ensures Age(t, next) == Age(t, published) + 1
    {
      assert t != next;
    }
  }

  lemma {:induction false} RemoveRecent(d: Deferred, published: nat, n: nat)
    requires Recent(d, published, n)
    ensures Recent(Remove(d, published), Decrement(published), n)
  {
    forall t | t in Remove(d, published).pending
      ensures Age(t, Decrement(published)) == Age(t, published) - 1
    {
    }
  }

  // ----- the resequencer -----

  /** `start` is the value of `expecting` when the listener was registered. */
  datatype Listener = Listener(start: nat, log: seq<Confirmation>)

  /** `sent` is the history of all confirmations passed on: sent[i] is the ack of tag i + 1. */
  datatype Reseq = Reseq(expecting: nat, sequencer: map<nat, Confirmation>, listeners: seq<Listener>, sent: seq<bool>)

  const NEW_RESEQ: Reseq := Reseq(1, map[], [], [])

  function Listen(q: Reseq): Reseq {
    q.(listeners := q.listeners + [Listener(q.expecting, [])])
  }

  function Notify(ls: seq<Listener>, conf: Confirmation): seq<Listener> {
    seq(|ls|, i requires 0 <= i < |ls| => ls[i].(log := ls[i].log + [conf]))
  }

  /** confirm */
  function Confirm(q: Reseq, conf: Confirmation): Reseq {
    Reseq(q.expecting + 1, q.sequencer - {q.expecting}, Notify(q.listeners, conf), q.sent + [conf.ack])
  }

  /** resequence */
  function Resequence(q: Reseq, published: nat): Reseq
    decreases published + 1 - q.expecting
  {
    if q.expecting <= published && q.expecting in q.sequencer
    then Resequence(Confirm(q, q.sequencer[q.expecting]), published)
    else q
  }

  /** The part of One before resequence. */
  function One(q: Reseq, conf: Confirmation): Reseq {
    if q.expecting == conf.tag then Confirm(q, conf) else q.(sequencer := q.sequencer[conf.tag := conf])
  }

  /** The loop of Multiple. */
  function Multiple(q: Reseq, conf: Confirmation): Reseq
    decreases conf.tag + 1 - q.expecting
  {
    if q.expecting <= conf.tag then Multiple(Confirm(q, Confirmation(q.expecting, conf.ack)), conf) else q
  }

  /** Every listener has received exactly the confirmations since its registration, in tag order. */
  ghost predicate ListenersInv(q: Reseq) {
    && 1 <= q.expecting && |q.sent| == q.expecting - 1
    && (forall t | t in q.sequencer :: q.sequencer[t].tag == t)
    && (forall i | 0 <= i < |q.listeners| :: UpToDate(q.listeners[i], q))
  }

  ghost predicate UpToDate(l: Listener, q: Reseq)
    requires 1 <= q.expecting && |q.sent| == q.expecting - 1
  {
    && 1 <= l.start <= q.expecting && |l.log| == q.expecting - l.start
    && forall j | 0 <= j < |l.log| :: l.log[j] == Confirmation(l.start + j, q.sent[l.start - 1 + j])
  }

  lemma {:induction false} ConfirmKeeps(q: Reseq, conf: Confirmation)
    requires ListenersInv(q) && conf.tag == q.expecting
    ensures ListenersInv(Confirm(q, conf))
  {
    var r := Confirm(q, conf);
    forall i | 0 <= i < |r.listeners|
      ensures UpToDate(r.listeners[i], r)
    {
      assert UpToDate(q.listeners[i], q);
    }
  }

  /** What resequence does: it passes on the unbroken run of buffered confirmations, up to the last
      publish, each as it was buffered. */
  lemma {:induction false} ResequenceRun(q: Reseq, published: nat)
    requires ListenersInv(q)
    ensures var r := Resequence(q, published);
            && ListenersInv(r) && q.expecting <= r.expecting
            && r.sent[..q.expecting - 1] == q.sent
            && (forall t | q.expecting <= t < r.expecting :: t in q.sequencer && r.sent[t - 1] == q.sequencer[t].ack)
            && (forall t | r.expecting <= t :: t in r.sequencer <==> t in q.sequencer)
            && (forall t | r.expecting <= t && t in r.sequencer :: r.sequencer[t] == q.sequencer[t])
            && (r.expecting > published || r.expecting !in r.sequencer)
            && (r.expecting == q.expecting || r.expecting <= published + 1)
    decreases published + 1 - q.expecting
  {
    if q.expecting <= published && q.expecting in q.sequencer {
      var q' := Confirm(q, q.sequencer[q.expecting]);
      ConfirmKeeps(q, q.sequencer[q.expecting]);
      ResequenceRun(q', published);
      var r := Resequence(q, published);
      assert r.sent[..q.expecting - 1] == r.sent[..q.expecting][..q.expecting - 1];
      assert r.sent[q.expecting - 1] == r.sent[..q.expecting][q.expecting - 1];
      forall t | q.expecting <= t < r.expecting
        ensures t in q.sequencer && r.sent[t - 1] == q.sequencer[t].ack
      {
        if t > q.expecting {
          assert t in q'.sequencer;
        }
      }
    } else {
      assert q.sent[..|q.sent|] == q.sent;
    }
  }

  /** What the loop of Multiple does: it passes on every tag up to the given one with the given ack. */
  lemma {:induction false} MultipleRun(q: Reseq, conf: Confirmation)
    requires ListenersInv(q)
    ensures var r := Multiple(q, conf);
            && ListenersInv(r)
            && r.expecting == (if q.expecting <= conf.tag then conf.tag + 1 else q.expecting)
            && r.sent[..q.expecting - 1] == q.sent
            && (forall i | q.expecting - 1 <= i < |r.sent| :: r.sent[i] == conf.ack)
            && (forall t | r.expecting <= t :: t in r.sequencer <==> t in q.sequencer)
            && (forall t | r.expecting <= t && t in r.sequencer :: r.sequencer[t] == q.sequencer[t])
    decreases conf.tag + 1 - q.expecting
  {
    if q.expecting <= conf.tag {
      var c := Confirmation(q.expecting, conf.ack);
      var q' := Confirm(q, c);
      ConfirmKeeps(q, c);
      MultipleRun(q', conf);
      var r := Multiple(q, conf);
      assert r.sent[..q.expecting - 1] == r.sent[..q.expecting][..q.expecting - 1];
      assert r.sent[q.expecting - 1] == r.sent[..q.expecting][q.expecting - 1];
    } else {
      assert q.sent[..|q.sent|] == q.sent;
    }
  }

  lemma {:induction false} OneRun(q: Reseq, conf: Confirmation)
    requires ListenersInv(q)
    ensures var r := One(q, conf);
            && ListenersInv(r)
            && r.expecting == (if q.expecting == conf.tag then conf.tag + 1 else q.expecting)
            && r.sent[..q.expecting - 1] == q.sent
            && (q.expecting == conf.tag ==> r.sent[conf.tag - 1] == conf.ack)
            && (forall t | r.expecting <= t :: t in r.sequencer <==> t in q.sequencer || t == conf.tag)
            && (forall t | r.expecting <= t && t in r.sequencer ::
                  r.sequencer[t] == if t == conf.tag then conf else q.sequencer[t])
  {
    if q.expecting == conf.tag {
      ConfirmKeeps(q, conf);
    } else {
      var r := One(q, conf);
      forall i | 0 <= i < |r.listeners|
        ensures UpToDate(r.listeners[i], r)
      {
        assert UpToDate(q.listeners[i], q);
      }
    }
  }

  // ----- listeners stay -----

  /** The listeners of `before` are still there, and what they have received since comes after. */
  ghost predicate Extends(before: seq<Listener>, after: seq<Listener>) {
    && |before| <= |after|
    && forall i | 0 <= i < |before| :: after[i].start == before[i].start && before[i].log <= after[i].log
  }

  lemma {:induction false} ExtendsTransitive(a: seq<Listener>, b: seq<Listener>, c: seq<Listener>)
    requires Extends(a, b) && Extends(b, c)
    ensures Extends(a, c)
  {
    forall i | 0 <= i < |a|
      ensures c[i].start == a[i].start && a[i].log <= c[i].log
    {
      assert b[i].start == a[i].start && a[i].log <= b[i].log;
      assert a[i].log == b[i].log[..|a[i].log|] == c[i].log[..|a[i].log|];
    }
  }

  lemma {:induction false} ResequenceExtends(q: Reseq, published: nat)
    ensures Extends(q.listeners, Resequence(q, published).listeners)
    ensures |Resequence(q, published).listeners| == |q.listeners|
    decreases published + 1 - q.expecting
  {
    if q.expecting <= published && q.expecting in q.sequencer {
      var q' := Confirm(q, q.sequencer[q.expecting]);
      ResequenceExtends(q', published);
      ExtendsTransitive(q.listeners, q'.listeners, Resequence(q', published).listeners);
    }
  }

  lemma {:induction false} MultipleExtends(q: Reseq, conf: Confirmation)
    ensures Extends(q.listeners, Multiple(q, conf).listeners)
    ensures |Multiple(q, conf).listeners| == |q.listeners|
    decreases conf.tag + 1 - q.expecting
  {
    if q.expecting <= conf.tag {
      var q' := Confirm(q, Confirmation(q.expecting, conf.ack));
      MultipleExtends(q', conf);
      ExtendsTransitive(q.listeners, q'.listeners, Multiple(q', conf).listeners);
    }
  }
}
