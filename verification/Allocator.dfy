/** The channel id allocator: a bitset with a rolling index. */
module Allocator {
  import opened Options

  // ----- the cycle of ids -----

  datatype Range = Range(low: nat, high: nat) {
    predicate Valid() {
      low <= high
    }

    predicate Contains(n: nat) {
      low <= n <= high
    }

    /** The id after `n`, wrapping around. */
    function After(n: nat): nat {
      if n == high then low else n + 1
    }

    /** Walking from `from`, id `n` is met no later than id `to`. */
    predicate Between(from: nat, n: nat, to: nat) {
      if from <= to then from <= n <= to
      else (from <= n <= high) || (low <= n <= to)
    }
  }

  datatype Alloc = Alloc(range: Range, pool: set<nat>, follow: nat)

  ghost predicate AllocInv(a: Alloc) {
    a.range.Valid() && a.range.Contains(a.follow) && forall n | n in a.pool :: a.range.Contains(n)
  }

  /** `id` is the first free id, going round from the rolling index. */
  ghost predicate FirstFree(a: Alloc, id: nat) {
    && a.range.Contains(id) && id !in a.pool
    && forall n | a.range.Contains(n) && n !in a.pool :: a.range.Between(a.follow, id, n)
  }

  ghost predicate Full(a: Alloc) {
    forall n | a.range.Contains(n) :: n in a.pool
  }

  /** The meaning of `next`: what it returns and what it leaves behind. */
  ghost predicate Next(a: Alloc, a': Alloc, id: Option<nat>) {
    match id
    case None => Full(a) && a' == a.(follow := a.range.After(a.follow))
    case Some(id) => FirstFree(a, id) && a' == a.(pool := a.pool + {id}, follow := a.range.After(id))
  }

  /** There is one outcome only. */
  lemma {:induction false} NextDeterministic(a: Alloc, a1: Alloc, id1: Option<nat>, a2: Alloc, id2: Option<nat>)
    requires AllocInv(a) && Next(a, a1, id1) && Next(a, a2, id2)
    ensures a1 == a2 && id1 == id2
  {
    if id1.Some? && id2.Some? {
      assert a.range.Between(a.follow, id1.value, id2.value);
      assert a.range.Between(a.follow, id2.value, id1.value);
    }
  }

  lemma {:induction false} NextKeeps(a: Alloc, a': Alloc, id: Option<nat>)
    requires AllocInv(a) && Next(a, a', id)
    ensures AllocInv(a')
  {
  }

  function Release(a: Alloc, n: nat): Alloc {
    a.(pool := a.pool - {n})
  }

  /** allocator.go as it works: the bits of `pool` and the index `follow` change in place. */
  class AllocatorObject {
    var pool: set<nat>
    var follow: nat
    const low: nat
    const high: nat

    ghost function View(): Alloc
      reads this
    {
      Alloc(Range(low, high), pool, follow)
    }

    ghost predicate Valid()
      reads this
    {
      AllocInv(View())
    }

    constructor (low: nat, high: nat)
      requires low <= high
      ensures Valid() && View() == Alloc(Range(low, high), {}, low)
    {
      this.low, this.high := low, high;
      pool, follow := {}, low;
    }

    method Reserve(n: nat) returns (ok: bool)
      modifies this`pool
      ensures ok <==> n !in old(pool)
      ensures pool == old(pool) + {n}
    {
      if n in pool {
        return false;
      }
      pool := pool + {n};
      return true;
    }

    method ReleaseId(n: nat)
      requires Valid()
      modifies this`pool
      ensures Valid() && View() == Release(old(View()), n)
    {
      pool := pool - {n};
    }

    /** The deferred part of next. */
    method Roll()
      modifies this`follow
      ensures follow == Range(low, high).After(old(follow))
    {
      if follow == high {
        follow := low;
      } else {
        follow := follow + 1;
      }
    }

    method NextId() returns (id: Option<nat>)
      requires Valid()
      modifies this`pool, this`follow
      ensures Valid() && Next(old(View()), View(), id)
    {
      var wrapped := follow;
      while follow <= high
        invariant wrapped <= follow <= high + 1 && pool == old(pool)
        invariant forall n | wrapped <= n < follow :: n in pool
      {
        var ok := Reserve(follow);
        if ok {
          id := Some(follow);
          Roll();
          return;
        }
        assert pool == old(pool);
        follow := follow + 1;
      }
      follow := low;
      while follow < wrapped
        invariant low <= follow <= wrapped && pool == old(pool)
        invariant forall n | wrapped <= n <= high :: n in pool
        invariant forall n | low <= n < follow :: n in pool
      {
        var ok := Reserve(follow);
        if ok {
          id := Some(follow);
          Roll();
          return;
        }
        assert pool == old(pool);
        follow := follow + 1;
      }
      id := None;
      Roll();
    }
  }

  // ----- fairness over a trace -----

  /** The ids whose bits one `next` looks at. */
  ghost predicate Scanned(a: Alloc, id: Option<nat>, n: nat) {
    a.range.Contains(n) && (id.Some? ==> a.range.Between(a.follow, n, id.value))
  }

  lemma {:induction false} ScannedWereReserved(a: Alloc, a': Alloc, id: Option<nat>, n: nat)
    requires AllocInv(a) && Next(a, a', id) && Scanned(a, id, n) && id != Some(n)
    ensures n in a.pool
  {
  }

  datatype Op = Allocated(id: Option<nat>) | Released(n: nat)

  /** One step of a trace. */
  ghost predicate StepOf(a: Alloc, op: Op, a': Alloc) {
    match op
    case Allocated(id) => Next(a, a', id)
    case Released(n) => a' == Release(a, n)
  }

  /** The allocator went through `states` by `ops`. */
  ghost predicate Trace(states: seq<Alloc>, ops: seq<Op>) {
    && |states| == |ops| + 1 && AllocInv(states[0])
    && forall i | 0 <= i < |ops| :: StepOf(states[i], ops[i], states[i + 1])
  }

  lemma {:induction false} TraceInv(states: seq<Alloc>, ops: seq<Op>, i: nat)
    requires Trace(states, ops) && i <= |ops|
    ensures AllocInv(states[i]) && states[i].range == states[0].range
  {
    if i > 0 {
      TraceInv(states, ops, i - 1);
      assert StepOf(states[i - 1], ops[i - 1], states[i]);
      if ops[i - 1].Allocated? {
        NextKeeps(states[i - 1], states[i], ops[i - 1].id);
      }
    }
  }

  /** Step `k` looked at the bit of `n`. */
  ghost predicate Passed(states: seq<Alloc>, ops: seq<Op>, k: nat, n: nat)
    requires k < |ops| < |states|
  {
    ops[k].Allocated? && Scanned(states[k], ops[k].id, n)
  }

  /** Some step before step `i` looked at the bit of `n`. */
  ghost predicate PassedBefore(states: seq<Alloc>, ops: seq<Op>, i: nat, n: nat)
    requires i <= |ops| < |states|
  {
    exists k: nat :: k < i && Passed(states, ops, k, n)
  }

  /** From right after id `x` was handed out: every id between there and the rolling index has been
      passed. */
  lemma {:induction false} PassedUpToIndex(states: seq<Alloc>, ops: seq<Op>, x: nat, i: nat, n: nat)
    requires Trace(states, ops) && i <= |ops|
    requires states[0].range.Contains(x) && states[0].follow == states[0].range.After(x)
    requires states[0].range.Contains(n) && n != states[i].follow
    requires states[0].range.Between(states[0].follow, n, states[i].follow)
    requires states[i].follow != states[0].follow
    ensures PassedBefore(states, ops, i, n)
  {
    TraceInv(states, ops, i);
    if i > 0 {
      TraceInv(states, ops, i - 1);
      var a, op := states[i - 1], ops[i - 1];
      assert StepOf(a, op, states[i]);
      if op.Allocated? && Scanned(a, op.id, n) {
        assert Passed(states, ops, i - 1, n);
      } else {
        PassedUpToIndex(states, ops, x, i - 1, n);
        var k: nat :| k < i - 1 && Passed(states, ops, k, n);
        assert k < i && Passed(states, ops, k, n);
      }
    }
  }

  /** Between two successive allocations of the same id, every other id of the range was handed out, or
      was found reserved when the rolling index passed it. */
  lemma {:induction false} ReuseIsFair(states: seq<Alloc>, ops: seq<Op>, x: nat, n: nat)
    requires Trace(states, ops) && ops != []
    requires states[0].range.Contains(x) && states[0].follow == states[0].range.After(x)
    requires ops[|ops| - 1] == Allocated(Some(x))
    requires states[0].range.Contains(n) && n != x
    ensures exists k: nat :: k < |ops| && Passed(states, ops, k, n)
                             && (ops[k].id == Some(n) || n in states[k].pool)
  {
    var last := |ops| - 1;
    TraceInv(states, ops, last);
    var a := states[last];
    assert StepOf(a, ops[last], states[last + 1]);
    var k: nat;
    if Scanned(a, Some(x), n) {
      k := last;
    } else {
      PassedUpToIndex(states, ops, x, last, n);
      k :| k < last && Passed(states, ops, k, n);
    }
    TraceInv(states, ops, k);
    assert StepOf(states[k], ops[k], states[k + 1]);
    if ops[k].id != Some(n) {
      ScannedWereReserved(states[k], states[k + 1], ops[k].id, n);
    }
  }
}
