/** What happens in a run of concurrent senders, told by its events: which messages an RPC frame cut, and
    in which order the holders of a channel's lock got their messages out. */
module Histories {
  import opened Bytes
  import opened Options
  import opened Sequences
  import opened Reassembly
  import opened Demux
  import opened Multiplex

  /** Channel `c` through a run: its state before each event and after the last, and the state of the
      connection that the events met. */
  datatype Story = Story(c: uint16, fs: nat, es: seq<Event>, chs: seq<Chan>, connClosed: seq<bool>, broken: seq<bool>)

  ghost predicate Legal(t: Story) {
    && GoodFrameSize(t.fs)
    && |t.chs| == |t.es| + 1 && |t.connClosed| == |t.es| && |t.broken| == |t.es|
    && forall i | 0 <= i < |t.chs| :: WellFormedChan(t.chs[i], t.c, t.fs)
  }

  function OnChannel(e: Event, c: uint16): bool {
    !e.CloseConn? && !e.Connection0? && e.c == c
  }

  /** Event `i` of the story does what ChanStep says. */
  ghost predicate Follows(t: Story, i: nat)
    requires Legal(t) && i < |t.es|
  {
    t.chs[i + 1] == if OnChannel(t.es[i], t.c)
                    then ChanStep(t.chs[i], t.c, t.es[i], t.fs, t.connClosed[i], t.broken[i]).0
                    else t.chs[i]
  }

  ghost predicate Truthful(t: Story) {
    && Legal(t) && t.chs[0] == NEW_CHAN
    && forall i | 0 <= i < |t.es| :: Follows(t, i)
  }

  ghost predicate Possible(ids: set<uint16>, fs: nat, c: uint16) {
    GoodFrameSize(fs) && 0 !in ids && c in ids
  }

  /** The story of a channel in a run. */
  ghost function StoryOf(ids: set<uint16>, es: seq<Event>, fs: nat, c: uint16): (t: Story)
    requires Possible(ids, fs, c)
    ensures t.c == c && t.fs == fs && t.es == es && |t.chs| == |es| + 1
    ensures t.chs[|es|] == Run(ids, es, fs).chans[c]
  {
    assert es[..|es|] == es;
    Story(c, fs, es,
          seq(|es| + 1, i requires 0 <= i <= |es| => Run(ids, es[..i], fs).chans[c]),
          seq(|es|, i requires 0 <= i < |es| => Run(ids, es[..i], fs).connClosed),
          seq(|es|, i requires 0 <= i < |es| => Run(ids, es[..i], fs).broken))
  }

  lemma {:induction false} StoryLegal(ids: set<uint16>, es: seq<Event>, fs: nat, c: uint16)
    requires Possible(ids, fs, c)
    ensures Legal(StoryOf(ids, es, fs, c))
  {
    var t := StoryOf(ids, es, fs, c);
    forall i | 0 <= i < |t.chs|
      ensures WellFormedChan(t.chs[i], c, fs)
    {
      SysWellFormed(Run(ids, es[..i], fs), fs);
    }
  }

  lemma {:induction false} StoryFollows(ids: set<uint16>, es: seq<Event>, fs: nat, c: uint16, i: nat)
    requires Possible(ids, fs, c) && i < |es| && Legal(StoryOf(ids, es, fs, c))
    ensures Follows(StoryOf(ids, es, fs, c), i)
  {
    var t, s, s' := StoryOf(ids, es, fs, c), Run(ids, es[..i], fs), Run(ids, es[..i + 1], fs);
    RunNext(ids, es, fs, i);
    OneChannel(s, es[i], fs, c);
    assert t.chs[i] == s.chans[c] && t.chs[i + 1] == s'.chans[c];
    assert t.connClosed[i] == s.connClosed && t.broken[i] == s.broken;
  }

  lemma {:induction false} RunNext(ids: set<uint16>, es: seq<Event>, fs: nat, i: nat)
    requires GoodFrameSize(fs) && 0 !in ids && i < |es|
    ensures WellFormedSys(Run(ids, es[..i], fs), fs)
    ensures Run(ids, es[..i + 1], fs) == Next(Run(ids, es[..i], fs), es[i], fs)
  {
    RunSnoc(ids, es[..i], es[i], fs);
    assert es[..i] + [es[i]] == es[..i + 1];
  }

  lemma {:induction false} OneChannel(s: Sys, e: Event, fs: nat, c: uint16)
    requires GoodFrameSize(fs) && WellFormedSys(s, fs) && c in s.chans
    ensures c in Next(s, e, fs).chans
    ensures Next(s, e, fs).chans[c]
            == if OnChannel(e, c) then ChanStep(s.chans[c], c, e, fs, s.connClosed, s.broken).0 else s.chans[c]
  {
  }

  lemma {:induction false} StoryTruthful(ids: set<uint16>, es: seq<Event>, fs: nat, c: uint16)
    requires Possible(ids, fs, c)
    ensures Truthful(StoryOf(ids, es, fs, c))
  {
    StoryLegal(ids, es, fs, c);
    assert es[..0] == [];
    forall i | 0 <= i < |es|
      ensures Follows(StoryOf(ids, es, fs, c), i)
    {
      StoryFollows(ids, es, fs, c, i);
    }
  }

  // ----- events that took effect -----

  /** A sender gets the lock. */
  ghost predicate Takes(t: Story, i: nat)
    requires Legal(t) && i < |t.es|
  {
    var ch := t.chs[i];
    && t.es[i].Acquire? && t.es[i].c == t.c
    && ch.holder.None? && WellFormed(t.es[i].msg) && (IsCloseOk(t.es[i].msg) ==> ch.closed)
  }

  /** The holder of the lock writes the last frame of its message. */
  ghost predicate Finishes(t: Story, i: nat)
    requires Legal(t) && i < |t.es|
  {
    var ch := t.chs[i];
    && t.es[i].Write? && t.es[i].c == t.c && t.es[i].ok && !t.broken[i]
    && ch.holder.Some? && ch.holder.value.stage.Sending? && ch.holder.value.stage.cleared
    && ch.holder.value.stage.sent + 1 == |FramesOf(t.c, ch.holder.value.msg, t.fs)|
  }

  /** An RPC frame is written. */
  ghost predicate Calls(t: Story, i: nat)
    requires Legal(t) && i < |t.es|
  {
    t.es[i].Rpc? && t.es[i].c == t.c && t.es[i].ok && !HasContent(t.es[i].m) && !t.broken[i]
  }

  /** An RPC frame is written while the holder of the lock is part way through its message. */
  ghost predicate Cuts(t: Story, i: nat)
    requires Legal(t) && i < |t.es|
  {
    Calls(t, i) && PartWay(t.chs[i], t.c, t.fs)
  }

  /** The lock does not change hands from event `i` to event `j`. */
  ghost predicate SameHolder(t: Story, i: nat, j: nat)
    requires Legal(t) && j <= |t.es|
  {
    forall k | i <= k < j :: !Takes(t, k)
  }

  /** The holder has written its whole message. */
  ghost predicate Due(ch: Chan, c: uint16, fs: nat)
    requires GoodFrameSize(fs) && WellFormedChan(ch, c, fs)
  {
    && ch.holder.Some? && ch.holder.value.stage.Sending?
    && ch.holder.value.stage.sent == |FramesOf(c, ch.holder.value.msg, fs)|
  }

  ghost predicate KeepsHolder(ch: Chan, ch': Chan, c: uint16, fs: nat)
    requires GoodFrameSize(fs) && WellFormedChan(ch, c, fs) && WellFormedChan(ch', c, fs)
  {
    ch'.holder.Some? ==>
      && ch.holder.Some? && ch'.holder.value.msg == ch.holder.value.msg && (Due(ch', c, fs) <==> Due(ch, c, fs))
  }

  /** What one event does to the channel, as far as this module is concerned. */
  ghost predicate Told(t: Story, i: nat)
    requires Legal(t) && i < |t.es|
  {
    var ch, ch' := t.chs[i], t.chs[i + 1];
    if Takes(t, i) then ch' == ch.(holder := Some(Holder(t.es[i].msg, Locked, false)))
    else if Finishes(t, i) then
      && ch.holder.Some? && ch'.holder.Some? && ch'.holder.value.msg == ch.holder.value.msg
      && ch'.holder.value.torn == ch.holder.value.torn && !Due(ch, t.c, t.fs) && Due(ch', t.c, t.fs)
      && ch'.log == ch.log + [ch.holder.value.msg] && ch'.held == ch.held + [ch.holder.value.msg]
      && ch'.kept == if ch.holder.value.torn then ch.kept else ch.kept + [ch.holder.value.msg]
    else
      && KeepsHolder(ch, ch', t.c, t.fs) && ch'.held == ch.held
      && (ch'.holder.Some? ==> ch'.holder.value.torn == (ch.holder.value.torn || Cuts(t, i)))
      && var called := if Calls(t, i) then [Plain(t.es[i].m)] else [];
         ch'.log == ch.log + called && ch'.kept == ch.kept + called
  }

  lemma {:induction false} WriteTells(t: Story, i: nat)
    requires Legal(t) && i < |t.es| && Follows(t, i) && t.es[i].Write?
    ensures Told(t, i)
  {
  }

  lemma {:induction false} CallTells(t: Story, i: nat)
    requires Legal(t) && i < |t.es| && Follows(t, i) && t.es[i].Rpc?
    ensures Told(t, i)
  {
  }

  /** An event that writes nothing and does not take the lock. */
  lemma {:induction false} QuietChan(ch: Chan, c: uint16, e: Event, fs: nat, connClosed: bool, broken: bool)
    requires GoodFrameSize(fs) && WellFormedChan(ch, c, fs) && !e.Write? && !e.Rpc? && !e.Acquire?
    ensures var ch' := ChanStep(ch, c, e, fs, connClosed, broken).0;
            && WellFormedChan(ch', c, fs) && ch'.log == ch.log && ch'.held == ch.held && ch'.kept == ch.kept
            && KeepsHolder(ch, ch', c, fs)
            && (ch'.holder.Some? ==> ch'.holder.value.torn == ch.holder.value.torn)
  {
  }

  lemma {:induction false} QuietTells(t: Story, i: nat)
    requires Legal(t) && i < |t.es| && Follows(t, i) && !t.es[i].Write? && !t.es[i].Rpc? && !t.es[i].Acquire?
    ensures Told(t, i)
  {
    QuietChan(t.chs[i], t.c, t.es[i], t.fs, t.connClosed[i], t.broken[i]);
    assert t.chs[i].log + [] == t.chs[i].log && t.chs[i].kept + [] == t.chs[i].kept;
  }

  lemma {:induction false} TakeTells(t: Story, i: nat)
    requires Legal(t) && i < |t.es| && Follows(t, i) && t.es[i].Acquire?
    ensures Told(t, i)
  {
    assert t.chs[i].log + [] == t.chs[i].log && t.chs[i].kept + [] == t.chs[i].kept;
  }

  lemma {:induction false} EventTells(t: Story, i: nat)
    requires Legal(t) && i < |t.es| && Follows(t, i)
    ensures Told(t, i)
  {
    if t.es[i].Write? {
      WriteTells(t, i);
    } else if t.es[i].Rpc? {
      CallTells(t, i);
    } else if t.es[i].Acquire? {
      TakeTells(t, i);
    } else {
      QuietTells(t, i);
    }
  }

  // ----- which messages are cut -----

  /** The message of the current holder has been cut by event `i`. */
  ghost predicate CutBy(t: Story, i: nat, j: nat)
    requires Legal(t) && j <= |t.es|
  {
    i < j && Cuts(t, i) && SameHolder(t, i, j)
  }

  ghost predicate WasCut(t: Story, j: nat)
    requires Legal(t) && j <= |t.es|
  {
    exists i :: CutBy(t, i, j)
  }

  /** Event `j` finishes a message that an RPC frame had cut. */
  ghost predicate FinishesCut(t: Story, j: nat)
    requires Legal(t) && j < |t.es|
  {
    Finishes(t, j) && WasCut(t, j)
  }

  lemma {:induction false} CutStays(t: Story, n: nat)
    requires Legal(t) && n < |t.es| && !Takes(t, n) && !Cuts(t, n)
    ensures WasCut(t, n + 1) <==> WasCut(t, n)
  {
    var next := n + 1;
    if i :| CutBy(t, i, next) {
      assert CutBy(t, i, n);
    }
    if i :| CutBy(t, i, n) {
      assert CutBy(t, i, next);
    }
  }

  lemma {:induction false} TornTells(t: Story, n: nat)
    requires Truthful(t) && n <= |t.es|
    ensures var ch := t.chs[n];
            ch.holder.Some? ==> (ch.holder.value.torn <==> WasCut(t, n))
  {
    if n > 0 {
      TornTells(t, n - 1);
      EventTells(t, n - 1);
      if Takes(t, n - 1) {
        assert forall i :: !CutBy(t, i, n);
      } else if Cuts(t, n - 1) {
        assert CutBy(t, n - 1, n);
      } else {
        CutStays(t, n - 1);
      }
    }
  }

  /** The messages that event `i` gets across. */
  ghost function GetsAcross(t: Story, i: nat): seq<Msg>
    requires Legal(t) && i < |t.es|
  {
    if Finishes(t, i) && !FinishesCut(t, i) then [t.chs[i].holder.value.msg]
    else if Calls(t, i) then [Plain(t.es[i].m)]
    else []
  }

  /** The messages that the first `n` events get across. */
  ghost function Across(t: Story, n: nat): seq<Msg>
    requires Legal(t) && n <= |t.es|
  {
    if n == 0 then [] else Across(t, n - 1) + GetsAcross(t, n - 1)
  }

  lemma {:induction false} OneAcross(t: Story, i: nat)
    requires Truthful(t) && i < |t.es|
    ensures t.chs[i + 1].kept == t.chs[i].kept + GetsAcross(t, i)
  {
    EventTells(t, i);
    TornTells(t, i);
    assert t.chs[i].kept + [] == t.chs[i].kept;
  }

  lemma {:induction false} KeptTells(t: Story, n: nat)
    requires Truthful(t) && n <= |t.es|
    ensures t.chs[n].kept == Across(t, n)
  {
    if n > 0 {
      KeptTells(t, n - 1);
      OneAcross(t, n - 1);
    }
  }

  ghost predicate NoneCut(t: Story, n: nat)
    requires Legal(t) && n <= |t.es|
  {
    forall j | 0 <= j < n :: !FinishesCut(t, j)
  }

  lemma {:induction false} LossTells(t: Story, n: nat)
    requires Truthful(t) && n <= |t.es|
    ensures var ch := t.chs[n];
            |ch.kept| <= |ch.log| && if NoneCut(t, n) then ch.kept == ch.log else |ch.kept| < |ch.log|
  {
    if n > 0 {
      LossTells(t, n - 1);
      EventTells(t, n - 1);
      TornTells(t, n - 1);
      assert NoneCut(t, n) <==> NoneCut(t, n - 1) && !FinishesCut(t, n - 1);
    }
  }

  /** In every interleaving the receiver dispatches on a channel exactly the messages that got across
      uncut, up to the first channel.close. It dispatches all that was sent if and only if no message was
      finished after an RPC frame had cut it, and nothing followed a channel.close. */
  lemma {:induction false} DispatchesAllButCut(ids: set<uint16>, es: seq<Event>, fs: nat, c: uint16)
    requires Possible(ids, fs, c)
    ensures var s, t := Run(ids, es, fs), StoryOf(ids, es, fs, c);
            var r := DemuxAll(Listeners(ids), s.wire);
            && Legal(t)
            && Known(r, c) && Seen(r, c).dispatched == UpTo(Across(t, |es|), IsClose)
            && (Seen(r, c).dispatched == s.chans[c].log
                <==> NoneCut(t, |es|) && NothingFollows(s.chans[c].log, IsClose))
  {
    var t := StoryOf(ids, es, fs, c);
    StoryTruthful(ids, es, fs, c);
    DispatchesWhatWasSent(ids, es, fs, c);
    KeptTells(t, |es|);
    LossTells(t, |es|);
    UpToMeaning(t.chs[|es|].kept, IsClose);
  }

  // ----- lock order -----

  /** The sender that takes the lock at event `i` has finished its message before event `n`. */
  ghost predicate Completes(t: Story, i: nat, n: nat)
    requires Legal(t) && i < |t.es| && n <= |t.es|
  {
    Takes(t, i) && exists j :: FinishedBy(t, i, j, n)
  }

  ghost predicate FinishedBy(t: Story, i: nat, j: nat, n: nat)
    requires Legal(t) && n <= |t.es|
  {
    i < j < n && Finishes(t, j) && SameHolder(t, i + 1, j)
  }

  /** The messages of the first `m` senders that took the lock and finished before event `n`, in the order
      in which they took it. */
  ghost function Completed(t: Story, m: nat, n: nat): seq<Msg>
    requires Legal(t) && m <= n <= |t.es|
  {
    if m == 0 then []
    else Completed(t, m - 1, n)
         + if Completes(t, m - 1, n) then [t.es[m - 1].msg] else []
  }

  /** `a` is the event by which the present holder took the lock. */
  ghost predicate HeldSince(t: Story, a: nat, n: nat)
    requires Legal(t) && n <= |t.es|
  {
    var ch := t.chs[n];
    && ch.holder.Some? && a < n && Takes(t, a) && SameHolder(t, a + 1, n)
    && t.es[a].msg == ch.holder.value.msg
    && (Completes(t, a, n) <==> Due(ch, t.c, t.fs))
  }

  /** An event that finishes nothing completes nobody. */
  lemma {:induction false} NoneCompleted(t: Story, i: nat, n: nat)
    requires Legal(t) && i < |t.es| && n < |t.es| && !Finishes(t, n)
    ensures Completes(t, i, n + 1) <==> Completes(t, i, n)
  {
    var next := n + 1;
    if j :| FinishedBy(t, i, j, next) {
      assert FinishedBy(t, i, j, n);
    }
    if j :| FinishedBy(t, i, j, n) {
      assert FinishedBy(t, i, j, next);
    }
  }

  lemma {:induction false} HolderTells(t: Story, n: nat) returns (a: nat)
    requires Truthful(t) && n <= |t.es| && t.chs[n].holder.Some?
    ensures HeldSince(t, a, n)
  {
    assert n > 0;
    EventTells(t, n - 1);
    if Takes(t, n - 1) {
      a := n - 1;
      assert !Completes(t, a, n);
    } else {
      a := HolderTells(t, n - 1);
      if Finishes(t, n - 1) {
        assert FinishedBy(t, a, n - 1, n);
      } else {
        NoneCompleted(t, a, n - 1);
      }
    }
  }

  lemma {:induction false} CompletedStays(t: Story, m: nat, n: nat)
    requires Legal(t) && m <= n < |t.es| && !Finishes(t, n)
    ensures Completed(t, m, n + 1) == Completed(t, m, n)
  {
    if m > 0 {
      CompletedStays(t, m - 1, n);
      NoneCompleted(t, m - 1, n);
    }
  }

  /** Event `n` completes the present holder and nobody else. */
  lemma {:induction false} OneCompleted(t: Story, a: nat, i: nat, n: nat)
    requires Truthful(t) && i < n < |t.es| && Finishes(t, n) && HeldSince(t, a, n)
    ensures Completes(t, i, n + 1) <==> Completes(t, i, n) || i == a
    ensures i > a ==> !Completes(t, i, n + 1)
    ensures !Completes(t, a, n)
  {
    EventTells(t, n);
    if i == a {
      assert FinishedBy(t, a, n, n + 1);
    } else if i < a {
      assert !SameHolder(t, i + 1, n);
      var next := n + 1;
      if j :| FinishedBy(t, i, j, next) {
        assert FinishedBy(t, i, j, n);
      }
      if j :| FinishedBy(t, i, j, n) {
        assert FinishedBy(t, i, j, next);
      }
    }
  }

  lemma {:induction false} CompletedGrows(t: Story, a: nat, m: nat, n: nat)
    requires Truthful(t) && m <= n < |t.es| && Finishes(t, n) && HeldSince(t, a, n)
    ensures Completed(t, m, n + 1)
            == Completed(t, m, n) + if m > a then [t.es[a].msg] else []
  {
    if m > 0 {
      CompletedGrows(t, a, m - 1, n);
      OneCompleted(t, a, m - 1, n);
    }
  }

  lemma {:induction false} HeldTells(t: Story, n: nat)
    requires Truthful(t) && n <= |t.es|
    ensures t.chs[n].held == Completed(t, n, n)
  {
    if n > 0 {
      HeldTells(t, n - 1);
      EventTells(t, n - 1);
      assert !Completes(t, n - 1, n);
      assert Completed(t, n, n) == Completed(t, n - 1, n);
      if Finishes(t, n - 1) {
        var a := HolderTells(t, n - 1);
        CompletedGrows(t, a, n - 1, n - 1);
      } else {
        CompletedStays(t, n - 1, n - 1);
      }
    }
  }

  /** The messages sent under the channel's lock got onto the wire in the order in which their senders took
      it, and they are exactly those whose senders finished. */
  lemma {:induction false} InLockOrder(ids: set<uint16>, es: seq<Event>, fs: nat, c: uint16)
    requires Possible(ids, fs, c)
    ensures var t := StoryOf(ids, es, fs, c);
            Legal(t) && Run(ids, es, fs).chans[c].held == Completed(t, |es|, |es|)
  {
    StoryTruthful(ids, es, fs, c);
    HeldTells(StoryOf(ids, es, fs, c), |es|);
  }
}
