/** confirms.go as it works: two objects updated in place, each method proved against module Confirms. */
module ConfirmsImpl {
  import opened Confirms

  /** Settling tag by tag is settling the whole set. */
  lemma {:induction false} SettleOneMore(d: Deferred, tags: set<nat>, t: nat, ack: bool)
    requires DeferredInv(d) && t !in tags
    ensures Settle(Settle(d, tags, ack), {t}, ack) == Settle(d, tags + {t}, ack)
  {
    var one, all := Settle(Settle(d, tags, ack), {t}, ack), Settle(d, tags + {t}, ack);
    assert one.pending == all.pending;
    assert one.handles == all.handles;
  }

  lemma {:induction false} ResolveOneMore(d: Deferred, tags: set<nat>, t: nat, ack: bool)
    requires DeferredInv(d) && t !in tags
    ensures Resolve(Resolve(d, tags, ack), {t}, ack) == Resolve(d, tags + {t}, ack)
  {
    SettleOneMore(d, tags, t, ack);
    ResolvedOneMore(d, tags, t, ack);
    var one, all := Resolve(Resolve(d, tags, ack), {t}, ack), Resolve(d, tags + {t}, ack);
    assert one.handles == Settle(Settle(d, tags, ack), {t}, ack).handles;
    assert one.pending == Settle(Settle(d, tags, ack), {t}, ack).pending;
  }

  lemma {:induction false} ResolvedOneMore(d: Deferred, tags: set<nat>, t: nat, ack: bool)
    requires t !in tags
    ensures Resolve(Resolve(d, tags, ack), {t}, ack).resolved == Resolve(d, tags + {t}, ack).resolved
  {
  }

  /** The tags up to `tag` that are no longer in `todo`. */
  ghost function Done(d: Deferred, tag: nat, todo: set<nat>): set<nat> {
    PendingUpTo(d, tag) - todo
  }

  lemma {:induction false} RangeStep(d: Deferred, conf: Confirmation, todo: set<nat>, k: nat)
    requires DeferredInv(d) && todo <= d.pending.Keys && k in todo
    ensures DeferredInv(Resolve(d, Done(d, conf.tag, todo), conf.ack))
    ensures if k <= conf.tag
            then Resolve(Resolve(d, Done(d, conf.tag, todo), conf.ack), {k}, conf.ack)
                 == Resolve(d, Done(d, conf.tag, todo - {k}), conf.ack)
            else Done(d, conf.tag, todo) == Done(d, conf.tag, todo - {k})
  {
    ResolveKeeps(d, Done(d, conf.tag, todo), conf.ack);
    if k <= conf.tag {
      assert Done(d, conf.tag, todo - {k}) == Done(d, conf.tag, todo) + {k};
      ResolveOneMore(d, Done(d, conf.tag, todo), k, conf.ack);
    }
  }

  lemma {:induction false} SettleAt(d: Deferred, t: nat, ack: bool)
    requires DeferredInv(d) && t in d.pending
    ensures Settle(d, {t}, ack).handles == d.handles[d.pending[t] := Handle(t, 1, ack)]
    ensures Settle(d, {t}, ack).pending == d.pending - {t}
  {
  }

  lemma {:induction false} SettleAbsent(d: Deferred, t: nat, ack: bool)
    requires t !in d.pending
    ensures Settle(d, {t}, ack) == d && Resolve(d, {t}, ack) == d
  {
    assert d.pending - {t} == d.pending;
    assert Settle(d, {t}, ack).handles == d.handles;
    assert Resolve(d, {t}, ack).resolved == d.resolved;
  }

  class DeferredConfirmations {
    var pending: map<nat, nat>
    var handles: seq<Handle>
    ghost var resolved: map<nat, nat>

    ghost function Table(): Deferred
      reads this
    {
      Deferred(pending, handles, resolved)
    }

    constructor ()
      ensures Table() == NO_DEFERRED
    {
      pending, handles, resolved := map[], [], map[];
    }

    method Add(tag: nat) returns (handle: nat)
      modifies this
      ensures handle == |old(handles)| && Table() == Confirms.Add(old(Table()), tag)
    {
      handle := |handles|;
      handles := handles + [Handle(tag, 0, false)];
      pending := pending[tag := handle];
    }

    /** Drops a tag whose publish failed. */
    method Remove(tag: nat)
      requires DeferredInv(Table())
      modifies this
      ensures Table() == Confirms.Remove(old(Table()), tag)
    {
      if tag in pending {
        SettleAt(Table(), tag, false);
        var h := pending[tag];
        handles := handles[h := handles[h].(closes := handles[h].closes + 1)];
        pending := pending - {tag};
        assert handles == Confirms.Remove(old(Table()), tag).handles;
      } else {
        SettleAbsent(Table(), tag, false);
      }
    }

    method SetAck(tag: nat, ack: bool)
      requires DeferredInv(Table()) && tag in pending
      modifies this
      ensures pending == old(pending) - {tag} && resolved == old(resolved)
      ensures handles == Settle(old(Table()), {tag}, ack).handles
    {
      SettleAt(Table(), tag, ack);
      var h := pending[tag];
      handles := handles[h := Handle(handles[h].tag, handles[h].closes + 1, ack)];
      pending := pending - {tag};
    }

    method Confirm(conf: Confirmation)
      requires DeferredInv(Table())
      modifies this
      ensures Table() == Resolve(old(Table()), {conf.tag}, conf.ack)
    {
      if conf.tag in pending {
        ghost var d := Table();
        SetAck(conf.tag, conf.ack);
        resolved := resolved[conf.tag := d.pending[conf.tag]];
        assert resolved == Resolve(d, {conf.tag}, conf.ack).resolved;
      } else {
        SettleAbsent(Table(), conf.tag, conf.ack);
      }
    }

    /** Ranges over the pending map in any order, deleting as it goes. */
    method ConfirmMultiple(conf: Confirmation)
      requires DeferredInv(Table())
      modifies this
      ensures Table() == Resolve(old(Table()), PendingUpTo(old(Table()), conf.tag), conf.ack)
    {
      ghost var d := Table();
      var todo := pending.Keys;
      NothingToSettle(d, conf.ack);
      assert Done(d, conf.tag, todo) == {};
      while todo != {}
        invariant todo <= d.pending.Keys
        invariant Table() == Resolve(d, Done(d, conf.tag, todo), conf.ack)
        decreases todo
      {
        var k :| k in todo;
        RangeStep(d, conf, todo, k);
        if k <= conf.tag {
          Confirm(Confirmation(k, conf.ack));
        }
        todo := todo - {k};
      }
      assert Done(d, conf.tag, {}) == PendingUpTo(d, conf.tag);
    }

    /** Nacks everything still pending. */
    method Close()
      requires DeferredInv(Table())
      modifies this
      ensures Table() == Settle(old(Table()), old(pending).Keys, false)
    {
      ghost var d := Table();
      var todo := pending.Keys;
      NothingToSettle(d, false);
      assert d.pending.Keys - todo == {};
      while todo != {}
        invariant todo <= d.pending.Keys
        invariant Table() == Settle(d, d.pending.Keys - todo, false)
        decreases todo
      {
        var k :| k in todo;
        CloseStep(d, todo, k);
        SetAck(k, false);
        todo := todo - {k};
      }
      assert d.pending.Keys - {} == d.pending.Keys;
    }
  }

  lemma {:induction false} CloseStep(d: Deferred, todo: set<nat>, k: nat)
    requires DeferredInv(d) && todo <= d.pending.Keys && k in todo
    ensures var now := Settle(d, d.pending.Keys - todo, false);
            && DeferredInv(now) && k in now.pending
            && Settle(now, {k}, false) == Settle(d, d.pending.Keys - (todo - {k}), false)
  {
    SettleKeeps(d, d.pending.Keys - todo, false);
    assert d.pending.Keys - (todo - {k}) == d.pending.Keys - todo + {k};
    SettleOneMore(d, d.pending.Keys - todo, k, false);
  }

  lemma {:induction false} NothingToSettle(d: Deferred, ack: bool)
    ensures Resolve(d, {}, ack) == d && Settle(d, {}, ack) == d
  {
    assert d.pending - {} == d.pending;
    assert Settle(d, {}, ack).handles == d.handles;
    assert Resolve(d, {}, ack).resolved == d.resolved;
  }

  class PublisherConfirms {
    var listeners: seq<Listener>
    var sequencer: map<nat, Confirmation>
    const deferred: DeferredConfirmations
    var published: nat
    var expecting: nat
    ghost var sent: seq<bool>

    ghost function Queue(): Reseq
      reads this
    {
      Reseq(expecting, sequencer, listeners, sent)
    }

    ghost predicate Valid()
      reads this, deferred
    {
      DeferredInv(deferred.Table())
    }

    constructor ()
      ensures Valid() && Queue() == NEW_RESEQ && published == 0
      ensures fresh(deferred) && deferred.Table() == NO_DEFERRED
    {
      listeners, sequencer, published, expecting, sent := [], map[], 0, 1, [];
      deferred := new DeferredConfirmations();
    }

    method Listen()
      modifies this`listeners
      ensures Queue() == Confirms.Listen(old(Queue()))
    {
      listeners := listeners + [Listener(expecting, [])];
    }

    method Publish() returns (handle: nat)
      requires Valid()
      modifies this`published, deferred
      ensures Valid() && published == Increment(old(published))
      ensures handle == |old(deferred.handles)| && deferred.Table() == Confirms.Add(old(deferred.Table()), published)
    {
      published := Increment(published);
      AddKeeps(deferred.Table(), published);
      handle := deferred.Add(published);
    }

    /** Must follow a publish that failed. */
    method Unpublish()
      requires Valid()
      modifies this`published, deferred
      ensures Valid() && published == Decrement(old(published))
      ensures deferred.Table() == Remove(old(deferred.Table()), old(published))
    {
      SettleKeeps(deferred.Table(), {published}, false);
      deferred.Remove(published);
      published := Decrement(published);
    }

    /** confirm: passes one confirmation on to every listener. */
    method Notify(conf: Confirmation)
      modifies this`sequencer, this`expecting, this`listeners, this`sent
      ensures Queue() == Confirms.Confirm(old(Queue()), conf)
    {
      sequencer := sequencer - {expecting};
      expecting := expecting + 1;
      sent := sent + [conf.ack];
      for i := 0 to |listeners|
        invariant sequencer == old(sequencer) - {old(expecting)} && expecting == old(expecting) + 1
        invariant sent == old(sent) + [conf.ack] && |listeners| == |old(listeners)|
        invariant forall j | 0 <= j < i :: listeners[j] == Confirms.Notify(old(listeners), conf)[j]
        invariant forall j | i <= j < |listeners| :: listeners[j] == old(listeners)[j]
      {
        listeners := listeners[i := listeners[i].(log := listeners[i].log + [conf])];
      }
      assert listeners == Confirms.Notify(old(listeners), conf);
    }

    method Resequence()
      modifies this`sequencer, this`expecting, this`listeners, this`sent
      ensures Queue() == Confirms.Resequence(old(Queue()), published)
    {
      while expecting <= published && expecting in sequencer
        invariant Confirms.Resequence(old(Queue()), published) == Confirms.Resequence(Queue(), published)
        decreases published + 1 - expecting
      {
        Notify(sequencer[expecting]);
      }
    }

    method One(conf: Confirmation)
      requires Valid()
      modifies this`sequencer, this`expecting, this`listeners, this`sent, deferred
      ensures Valid()
      ensures Queue() == Confirms.Resequence(Confirms.One(old(Queue()), conf), published)
      ensures deferred.Table() == Resolve(old(deferred.Table()), {conf.tag}, conf.ack)
    {
      ResolveKeeps(deferred.Table(), {conf.tag}, conf.ack);
      deferred.Confirm(conf);
      if expecting == conf.tag {
        Notify(conf);
      } else {
        sequencer := sequencer[conf.tag := conf];
      }
      Resequence();
    }

    method Multiple(conf: Confirmation)
      requires Valid()
      modifies this`sequencer, this`expecting, this`listeners, this`sent, deferred
      ensures Valid()
      ensures Queue() == Confirms.Resequence(Confirms.Multiple(old(Queue()), conf), published)
      ensures deferred.Table() == Resolve(old(deferred.Table()), PendingUpTo(old(deferred.Table()), conf.tag), conf.ack)
    {
      ResolveKeeps(deferred.Table(), PendingUpTo(deferred.Table(), conf.tag), conf.ack);
      deferred.ConfirmMultiple(conf);
      ghost var table := deferred.Table();
      while expecting <= conf.tag
        invariant Confirms.Multiple(old(Queue()), conf) == Confirms.Multiple(Queue(), conf)
        invariant deferred.Table() == table
        decreases conf.tag + 1 - expecting
      {
        Notify(Confirmation(expecting, conf.ack));
      }
      Resequence();
    }

    /** Nacks the pending handles and forgets the listeners, whose channels are closed. */
    method Close()
      requires Valid()
      modifies this`listeners, deferred
      ensures Valid() && Queue() == old(Queue()).(listeners := [])
      ensures deferred.Table() == Settle(old(deferred.Table()), old(deferred.pending).Keys, false)
    {
      SettleKeeps(deferred.Table(), deferred.pending.Keys, false);
      deferred.Close();
      listeners := [];
    }
  }
}
