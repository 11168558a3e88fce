/** Channel lifecycle: the connection's registry, the id allocator beside it, and shutdown. */
module Registry {
  import opened Allocator
  import opened Options

  // ----- tuning -----

  const MAX_UINT16: nat := 0xFFFF
  const DEFAULT_CHANNEL_MAX: nat := 2047

  function Max(a: nat, b: nat): nat {
    if a > b then a else b
  }

  function Min(a: nat, b: nat): nat {
    if a < b then a else b
  }

  /** pick and pickUInt16: zero means no preference. */
  function Pick(client: nat, server: nat): nat {
    if client == 0 || server == 0 then Max(client, server) else Min(client, server)
  }

  /** Negotiation: the smaller of two limits, or the only one there is. */
  lemma {:induction false} PickMeaning(client: nat, server: nat)
    ensures client != 0 && server != 0 ==> Pick(client, server) == if client <= server then client else server
    ensures client == 0 ==> Pick(client, server) == server
    ensures server == 0 ==> Pick(client, server) == client
  {
  }

  /** The channel limit of openTune. */
  function ChannelMax(client: nat, server: nat): nat {
    var m := Pick(client, server);
    Min(if m == 0 then DEFAULT_CHANNEL_MAX else m, MAX_UINT16)
  }

  /** The limit is a usable channel id and exceeds neither side's, where a side has one. */
  lemma {:induction false} ChannelMaxRespected(client: nat, server: nat)
    requires client <= MAX_UINT16 && server <= MAX_UINT16
    ensures 1 <= ChannelMax(client, server) <= 65535
    ensures server != 0 ==> ChannelMax(client, server) <= server
    ensures client != 0 ==> ChannelMax(client, server) <= client
    ensures client == server == 0 ==> ChannelMax(client, server) == 2047
    ensures client != 0 && server != 0 ==> ChannelMax(client, server) == if client <= server then client else server
    ensures client == 0 != server ==> ChannelMax(client, server) == server
    ensures server == 0 != client ==> ChannelMax(client, server) == client
  {
  }

  // ----- the registry -----

  /** A channel object; `shut` that its shutdown has run, `dropped` that a failed open released it. */
  datatype Chan = Chan(id: nat, shut: bool, dropped: bool)

  /** `channels` maps ids to indices into `chans`, all channel objects ever made. `closed` is the flag of
      Connection, `destroyed` that the body of its shutdown has run. */
  datatype Conn = Conn(closed: bool, destroyed: bool, alloc: Alloc, channels: map<nat, nat>, chans: seq<Chan>)

  datatype Event =
    | Allocate(id: Option<nat>) // allocateChannel, and what the allocator came up with
    | ShutChan(h: nat)          // Channel.shutdown
    | ReleaseChan(h: nat)       // releaseChannel after shutdown, in closeChannel
    | FailOpen(h: nat)          // releaseChannel after a failed channel.open
    | SetClosed                 // the first line of Connection.shutdown
    | Destroy                   // the rest of it

  function Registered(c: Conn, h: nat): bool {
    h < |c.chans| && c.chans[h].id in c.channels && c.channels[c.chans[h].id] == h
  }

  function Unregister(c: Conn, h: nat): Conn
    requires h < |c.chans|
  {
    if !c.closed && Registered(c, h)
    then c.(channels := c.channels - {c.chans[h].id}, alloc := Release(c.alloc, c.chans[h].id))
    else c
  }

  function ShutRegistered(c: Conn): seq<Chan> {
    seq(|c.chans|, i requires 0 <= i < |c.chans| =>
      if Registered(c, i) then c.chans[i].(shut := true) else c.chans[i])
  }

  /** A channel under the id that the allocator found, if any. */
  function WithNew(c: Conn, alloc: Alloc, id: Option<nat>): Conn {
    match id
    case None => c.(alloc := alloc)
    case Some(id) => c.(alloc := alloc, channels := c.channels[id := |c.chans|],
                        chans := c.chans + [Chan(id, false, false)])
  }

  ghost predicate Steps(c: Conn, e: Event, c': Conn) {
    match e
    case Allocate(id) =>
      if c.closed then c' == c
      else exists alloc :: Next(c.alloc, alloc, id) && c' == WithNew(c, alloc, id)
    case ShutChan(h) =>
      c' == if h < |c.chans| then c.(chans := c.chans[h := c.chans[h].(shut := true)]) else c
    case ReleaseChan(h) =>
      c' == if h < |c.chans| && c.chans[h].shut then Unregister(c, h) else c
    case FailOpen(h) =>
      c' == if h < |c.chans|
            then Unregister(c, h).(chans := if !c.closed && Registered(c, h)
                                          then c.chans[h := c.chans[h].(dropped := true)] else c.chans)
            else c
    case SetClosed => c' == c.(closed := true)
    case Destroy =>
      c' == if c.closed && !c.destroyed
            then c.(destroyed := true, channels := map[], chans := ShutRegistered(c)) else c
  }

  ghost predicate Inv(c: Conn, limit: nat) {
    && (c.destroyed ==> c.closed && c.channels == map[])
    && (!c.destroyed ==> AllocInv(c.alloc) && c.alloc.range == Range(1, limit) && c.alloc.pool == c.channels.Keys)
    && (forall id | id in c.channels :: c.channels[id] < |c.chans| && c.chans[c.channels[id]].id == id)
    && (forall h | 0 <= h < |c.chans| :: 1 <= c.chans[h].id <= limit)
    && (forall h | 0 <= h < |c.chans| :: !c.chans[h].shut && !c.chans[h].dropped ==> Registered(c, h))
  }

  lemma {:induction false} UnregisterKeeps(c: Conn, h: nat, chan: Chan, limit: nat)
    requires Inv(c, limit) && h < |c.chans| && !c.closed && Registered(c, h)
    requires chan.id == c.chans[h].id && (chan.shut || chan.dropped)
    ensures Inv(Unregister(c, h).(chans := c.chans[h := chan]), limit)
  {
    var c' := Unregister(c, h).(chans := c.chans[h := chan]);
    assert forall i | 0 <= i < |c.chans| && i != h :: Registered(c', i) <==> Registered(c, i);
  }

  lemma {:induction false} AllocateKeeps(c: Conn, alloc: Alloc, id: nat, limit: nat)
    requires Inv(c, limit) && !c.closed && Next(c.alloc, alloc, Some(id))
    ensures Inv(WithNew(c, alloc, Some(id)), limit)
  {
    NextKeeps(c.alloc, alloc, Some(id));
    var c' := WithNew(c, alloc, Some(id));
    forall h | 0 <= h < |c.chans| && Registered(c, h)
      ensures Registered(c', h)
    {
      assert c'.chans[h] == c.chans[h] && c.chans[h].id != id;
    }
  }

  lemma {:induction false} ExhaustedKeeps(c: Conn, alloc: Alloc, limit: nat)
    requires Inv(c, limit) && !c.closed && Next(c.alloc, alloc, None)
    ensures Inv(WithNew(c, alloc, None), limit)
  {
    NextKeeps(c.alloc, alloc, None);
    var c' := WithNew(c, alloc, None);
    assert forall i | 0 <= i < |c.chans| :: Registered(c', i) <==> Registered(c, i);
  }

  lemma {:induction false} StepKeeps(c: Conn, e: Event, c': Conn, limit: nat)
    requires Inv(c, limit) && Steps(c, e, c')
    ensures Inv(c', limit)
  {
    match e
    case Allocate(id) =>
      if !c.closed {
        assert !c.destroyed;
        var alloc :| Next(c.alloc, alloc, id) && c' == WithNew(c, alloc, id);
        if id.Some? {
          AllocateKeeps(c, alloc, id.value, limit);
        } else {
          ExhaustedKeeps(c, alloc, limit);
        }
      }
    case ReleaseChan(h) =>
      if h < |c.chans| && c.chans[h].shut && !c.closed && Registered(c, h) {
        UnregisterKeeps(c, h, c.chans[h], limit);
        assert c.chans[h := c.chans[h]] == c.chans;
      }
    case FailOpen(h) =>
      if h < |c.chans| && !c.closed && Registered(c, h) {
        UnregisterKeeps(c, h, c.chans[h].(dropped := true), limit);
      }
    case Destroy =>
      if c.closed && !c.destroyed {
        DestroyKeeps(c, limit);
      }
    case ShutChan(h) =>
      ShutChanKeeps(c, h, limit);
    case SetClosed =>
      assert forall i | 0 <= i < |c.chans| :: Registered(c', i) <==> Registered(c, i);
  }

  lemma {:induction false} DestroyKeeps(c: Conn, limit: nat)
    requires Inv(c, limit) && c.closed
    ensures Inv(c.(destroyed := true, channels := map[], chans := ShutRegistered(c)), limit)
  {
  }

  lemma {:induction false} ShutChanKeeps(c: Conn, h: nat, limit: nat)
    requires Inv(c, limit)
    ensures h < |c.chans| ==> Inv(c.(chans := c.chans[h := c.chans[h].(shut := true)]), limit)
  {
    if h < |c.chans| {
      var c' := c.(chans := c.chans[h := c.chans[h].(shut := true)]);
      assert forall i | 0 <= i < |c.chans| :: Registered(c', i) <==> Registered(c, i);
    }
  }

  /** A connection went through `states` by `events`, starting freshly tuned. */
  ghost predicate Trace(states: seq<Conn>, events: seq<Event>, limit: nat) {
    && limit >= 1 && |states| == |events| + 1
    && states[0] == Conn(false, false, Alloc(Range(1, limit), {}, 1), map[], [])
    && forall i | 0 <= i < |events| :: Steps(states[i], events[i], states[i + 1])
  }

  lemma {:induction false} TraceInv(states: seq<Conn>, events: seq<Event>, limit: nat, i: nat)
    requires Trace(states, events, limit) && i <= |events|
    ensures Inv(states[i], limit)
  {
    if i > 0 {
      TraceInv(states, events, limit, i - 1);
      assert Steps(states[i - 1], events[i - 1], states[i]);
      StepKeeps(states[i - 1], events[i - 1], states[i], limit);
    }
  }

  /** In every run the registered ids are exactly the reserved ids, within the tuned limit, and no two
      registered channels share one. */
  lemma {:induction false} RegistryMatchesAllocator(states: seq<Conn>, events: seq<Event>, limit: nat, i: nat)
    requires Trace(states, events, limit) && i <= |events| && !states[i].destroyed
    ensures states[i].alloc.pool == states[i].channels.Keys
    ensures forall id | id in states[i].channels :: 1 <= id <= limit
    ensures forall id, id' | id in states[i].channels && id' in states[i].channels && id != id' ::
              states[i].channels[id] != states[i].channels[id']
  {
    TraceInv(states, events, limit, i);
  }

  /** No channel ever gets an id above the limit that the server asked for. */
  lemma {:induction false} IdsWithinServerLimit(states: seq<Conn>, events: seq<Event>, client: nat, server: nat, i: nat, h: nat)
    requires client <= MAX_UINT16 && 0 < server <= MAX_UINT16
    requires Trace(states, events, ChannelMax(client, server)) && i <= |events| && h < |states[i].chans|
    ensures 1 <= states[i].chans[h].id <= server
  {
    ChannelMaxRespected(client, server);
    TraceInv(states, events, ChannelMax(client, server), i);
  }

  /** Event `j` is a failed open that releases channel `h`. */
  ghost predicate Drops(states: seq<Conn>, events: seq<Event>, h: nat, j: nat)
    requires j < |events| < |states|
  {
    events[j] == FailOpen(h) && !states[j].closed && Registered(states[j], h)
  }

  /** Event `j` is a shutdown of channel `h` by itself. */
  ghost predicate Shuts(states: seq<Conn>, events: seq<Event>, h: nat, j: nat)
    requires j < |events| < |states|
  {
    events[j] == ShutChan(h) && h < |states[j].chans|
  }

  ghost predicate DroppedBefore(states: seq<Conn>, events: seq<Event>, h: nat, i: nat)
    requires i <= |events| < |states|
  {
    exists j | 0 <= j < i :: Drops(states, events, h, j)
  }

  ghost predicate ShutBefore(states: seq<Conn>, events: seq<Event>, h: nat, i: nat)
    requires i <= |events| < |states|
  {
    exists j | 0 <= j < i :: Shuts(states, events, h, j)
  }

  lemma {:induction false} BeforeNext(states: seq<Conn>, events: seq<Event>, h: nat, i: nat)
    requires i < |events| < |states|
    ensures DroppedBefore(states, events, h, i + 1) <==> DroppedBefore(states, events, h, i) || Drops(states, events, h, i)
    ensures ShutBefore(states, events, h, i + 1) <==> ShutBefore(states, events, h, i) || Shuts(states, events, h, i)
  {
  }

  /** What the flags of a channel say about its past. */
  ghost predicate Story(c: Conn, h: nat, dropped: bool, shut: bool)
    requires h < |c.chans|
  {
    var ch := c.chans[h];
    && ch.dropped == dropped && (shut ==> ch.shut) && (dropped ==> !Registered(c, h))
    && (ch.shut && (dropped || !c.destroyed) ==> shut)
  }

  /** One step of an old channel's story. */
  lemma {:induction false} StoryStep(c: Conn, e: Event, c': Conn, limit: nat, h: nat, dropped: bool, shut: bool)
    requires Inv(c, limit) && Steps(c, e, c') && h < |c.chans| && Story(c, h, dropped, shut)
    ensures h < |c'.chans|
    ensures Story(c', h, dropped || (e == FailOpen(h) && !c.closed && Registered(c, h)), shut || e == ShutChan(h))
  {
    match e
    case Allocate(id) =>
      if !c.closed {
        var alloc :| Next(c.alloc, alloc, id) && c' == WithNew(c, alloc, id);
      }
    case _ =>
  }

  /** A new channel has no past. */
  lemma {:induction false} NewChannel(c: Conn, e: Event, c': Conn, limit: nat, h: nat)
    requires Inv(c, limit) && Steps(c, e, c') && |c.chans| <= h < |c'.chans|
    ensures Story(c', h, false, false) && e.Allocate?
  {
    match e
    case Allocate(id) =>
      var alloc :| Next(c.alloc, alloc, id) && c' == WithNew(c, alloc, id);
    case _ =>
  }

  lemma {:induction false} NothingBefore(states: seq<Conn>, events: seq<Event>, limit: nat, i: nat, h: nat)
    requires Trace(states, events, limit) && i <= |events| && |states[i].chans| <= h
    ensures !DroppedBefore(states, events, h, i) && !ShutBefore(states, events, h, i)
  {
    if i > 0 {
      assert Steps(states[i - 1], events[i - 1], states[i]);
      Grows(states[i - 1], events[i - 1], states[i]);
      NothingBefore(states, events, limit, i - 1, h);
      BeforeNext(states, events, h, i - 1);
    }
  }

  lemma {:induction false} Grows(c: Conn, e: Event, c': Conn)
    requires Steps(c, e, c')
    ensures |c.chans| <= |c'.chans|
  {
  }

  ghost predicate StoryAt(states: seq<Conn>, events: seq<Event>, h: nat, i: nat)
    requires i <= |events| < |states| && h < |states[i].chans|
  {
    Story(states[i], h, DroppedBefore(states, events, h, i), ShutBefore(states, events, h, i))
  }

  lemma {:induction false} OldStory(states: seq<Conn>, events: seq<Event>, limit: nat, i: nat, h: nat)
    requires i < |events| < |states| && Inv(states[i], limit) && Steps(states[i], events[i], states[i + 1])
    requires h < |states[i].chans| && StoryAt(states, events, h, i)
    ensures h < |states[i + 1].chans| && StoryAt(states, events, h, i + 1)
  {
    var dropped, shut := DroppedBefore(states, events, h, i), ShutBefore(states, events, h, i);
    BeforeNext(states, events, h, i);
    StoryStep(states[i], events[i], states[i + 1], limit, h, dropped, shut);
  }

  lemma {:induction false} NewStory(states: seq<Conn>, events: seq<Event>, limit: nat, i: nat, h: nat)
    requires Trace(states, events, limit) && i < |events| && |states[i].chans| <= h < |states[i + 1].chans|
    ensures StoryAt(states, events, h, i + 1)
  {
    TraceInv(states, events, limit, i);
    assert Steps(states[i], events[i], states[i + 1]);
    NothingBefore(states, events, limit, i, h);
    BeforeNext(states, events, h, i);
    NewChannel(states[i], events[i], states[i + 1], limit, h);
  }

  lemma {:induction false} ChannelStory(states: seq<Conn>, events: seq<Event>, limit: nat, i: nat, h: nat)
    requires Trace(states, events, limit) && i <= |events| && h < |states[i].chans|
    ensures StoryAt(states, events, h, i)
  {
    assert i > 0;
    if h < |states[i - 1].chans| {
      ChannelStory(states, events, limit, i - 1, h);
      TraceInv(states, events, limit, i - 1);
      assert Steps(states[i - 1], events[i - 1], states[i]);
      OldStory(states, events, limit, i - 1, h);
    } else {
      NewStory(states, events, limit, i - 1, h);
    }
  }

  /** After connection shutdown a channel has not been shut down if and only if a failed open had released
      it and nothing ever shut it down by itself. */
  lemma {:induction false} ShutdownReachesAll(states: seq<Conn>, events: seq<Event>, limit: nat, i: nat, h: nat)
    requires Trace(states, events, limit) && i <= |events| && states[i].destroyed && h < |states[i].chans|
    ensures !states[i].chans[h].shut
            <==> DroppedBefore(states, events, h, i) && !ShutBefore(states, events, h, i)
  {
    TraceInv(states, events, limit, i);
    ChannelStory(states, events, limit, i, h);
  }

  /** A channel whose open failed is released without being shut down, and connection shutdown then
      misses it. */
  lemma {:induction false} FailedOpenEscapes() returns (states: seq<Conn>, events: seq<Event>)
    ensures Trace(states, events, 1) && states[|events|].destroyed
    ensures |states[|events|].chans| == 1 && !states[|events|].chans[0].shut
  {
    var empty := Alloc(Range(1, 1), {}, 1);
    var c0 := Conn(false, false, empty, map[], []);
    var c1 := c0.(alloc := Alloc(Range(1, 1), {1}, 1), channels := map[1 := 0], chans := [Chan(1, false, false)]);
    var c2 := c1.(alloc := Release(c1.alloc, 1), channels := map[], chans := [Chan(1, false, true)]);
    var c3 := c2.(closed := true);
    var c4 := c3.(destroyed := true, chans := ShutRegistered(c3));
    assert Next(c0.alloc, c1.alloc, Some(1)) && c1 == WithNew(c0, c1.alloc, Some(1));
    assert c1.channels == c0.channels[1 := |c0.chans|] && c1.chans == c0.chans + [Chan(1, false, false)];
    assert Steps(c0, Allocate(Some(1)), c1);
    assert c2.channels == c1.channels - {1} && c2.chans == c1.chans[0 := c1.chans[0].(dropped := true)];
    assert Steps(c1, FailOpen(0), c2);
    states, events := [c0, c1, c2, c3, c4], [Allocate(Some(1)), FailOpen(0), SetClosed, Destroy];
    assert Steps(c2, SetClosed, c3) && Steps(c3, Destroy, c4);
  }

  // ----- connection.go as it works -----

  /** The channels of the registry shut down, but for those still in `todo`. */
  ghost function ShutExcept(c: Conn, todo: set<nat>): seq<Chan> {
    seq(|c.chans|, i requires 0 <= i < |c.chans| =>
      if Registered(c, i) && c.chans[i].id !in todo then c.chans[i].(shut := true) else c.chans[i])
  }

  lemma {:induction false} ShutOneMore(c: Conn, limit: nat, todo: set<nat>, id: nat)
    requires Inv(c, limit) && todo <= c.channels.Keys && id in todo
    ensures var h := c.channels[id];
            h < |c.chans| && ShutExcept(c, todo)[h := c.chans[h].(shut := true)] == ShutExcept(c, todo - {id})
    ensures ShutExcept(c, todo)[c.channels[id]] == c.chans[c.channels[id]]
  {
  }

  class Connection {
    var closed: bool
    var destroyed: bool
    const allocator: AllocatorObject
    var channels: map<nat, nat>
    var chans: seq<Chan>

    ghost function View(): Conn
      reads this, allocator
    {
      Conn(closed, destroyed, allocator.View(), channels, chans)
    }

    ghost predicate Valid()
      reads this, allocator
    {
      Inv(View(), allocator.high)
    }

    constructor (client: nat, server: nat)
      requires client <= MAX_UINT16 && server <= MAX_UINT16
      ensures Valid() && allocator.high == ChannelMax(client, server) && fresh(allocator)
      ensures View() == Conn(false, false, Alloc(Range(1, allocator.high), {}, 1), map[], [])
    {
      ChannelMaxRespected(client, server);
      closed, destroyed, channels, chans := false, false, map[], [];
      allocator := new AllocatorObject(1, ChannelMax(client, server));
    }

    /** A new channel with a fresh id, or nothing if the connection is closed or the ids are used up. */
    method AllocateChannel() returns (h: Option<nat>, ghost id: Option<nat>)
      requires Valid()
      modifies this`channels, this`chans, allocator
      ensures Valid() && Steps(old(View()), Allocate(id), View())
      ensures h.Some? <==> !old(closed) && id.Some?
      ensures h.Some? ==> h.value == |old(chans)| && Registered(View(), h.value) && !chans[h.value].shut
    {
      ghost var before := View();
      if closed {
        return None, None;
      }
      var next := allocator.NextId();
      id := next;
      match next {
        case None =>
          h := None;
        case Some(n) =>
          h := Some(|chans|);
          channels := channels[n := |chans|];
          chans := chans + [Chan(n, false, false)];
      }
      assert Steps(before, Allocate(id), View());
      StepKeeps(before, Allocate(id), View(), allocator.high);
    }

    method ReleaseChannel(h: nat)
      requires Valid() && h < |chans|
      modifies this`channels, allocator
      ensures View() == Unregister(old(View()), h)
    {
      if !closed {
        var id := chans[h].id;
        if id in channels && channels[id] == h {
          channels := channels - {id};
          allocator.ReleaseId(id);
        }
      }
    }

    /** closeChannel: shut down, then release. Closing twice, or after the id went to another channel,
        releases nothing. */
    method CloseChannel(h: nat)
      requires Valid() && h < |chans|
      modifies this`channels, this`chans, allocator
      ensures Valid() && h < |chans| && chans[h].shut
      ensures View() == Unregister(old(View()).(chans := old(chans)[h := old(chans[h]).(shut := true)]), h)
    {
      ghost var before := View();
      chans := chans[h := chans[h].(shut := true)];
      assert Steps(before, ShutChan(h), View());
      StepKeeps(before, ShutChan(h), View(), allocator.high);
      ghost var mid := View();
      ReleaseChannel(h);
      assert Steps(mid, ReleaseChan(h), View());
      StepKeeps(mid, ReleaseChan(h), View(), allocator.high);
    }

    /** Ranges over the registry in any order and shuts every channel down. */
    method ShutChannels()
      requires Valid() && !destroyed
      modifies this`chans
      ensures chans == ShutRegistered(old(View()))
    {
      ghost var start := View();
      var todo := channels.Keys;
      assert chans == ShutExcept(start, todo);
      while todo != {}
        invariant todo <= channels.Keys
        invariant chans == ShutExcept(start, todo)
        decreases todo
      {
        var id :| id in todo;
        ShutOneMore(start, allocator.high, todo, id);
        chans := chans[channels[id] := chans[channels[id]].(shut := true)];
        todo := todo - {id};
      }
    }

    /** Connection.shutdown: every registered channel is shut down, once. */
    method Shutdown()
      requires Valid()
      modifies this`closed, this`destroyed, this`channels, this`chans
      ensures Valid() && destroyed
      ensures Steps(old(View()).(closed := true), Destroy, View())
      ensures forall h | 0 <= h < |chans| :: chans[h].shut || chans[h].dropped
    {
      ghost var before := View();
      closed := true;
      ghost var start := View();
      StepKeeps(before, SetClosed, start, allocator.high);
      if !destroyed {
        ShutChannels();
        channels := map[];
        destroyed := true;
      }
      StepKeeps(start, Destroy, View(), allocator.high);
    }
  }
}
