/** Elements of some kind in a sequence: how many there are, and what comes up to the first of them. */
module Sequences {

  predicate Any<T>(s: seq<T>, stop: T -> bool) {
    exists i :: 0 <= i < |s| && stop(s[i])
  }

  /** `s` up to and including the first element that stops. */
  function UpTo<T>(s: seq<T>, stop: T -> bool): seq<T> {
    if s == [] then []
    else
      var before := s[..|s| - 1];
      if Any(before, stop) then UpTo(before, stop) else s
  }

  lemma {:induction false} UpToSnoc<T>(s: seq<T>, x: T, stop: T -> bool)
    ensures Any(s + [x], stop) <==> Any(s, stop) || stop(x)
    ensures UpTo(s + [x], stop) == if Any(s, stop) then UpTo(s, stop) else s + [x]
  {
    assert (s + [x])[..|s|] == s;
    if Any(s, stop) {
      var i :| 0 <= i < |s| && stop(s[i]);
      assert (s + [x])[i] == s[i];
    }
    assert (s + [x])[|s|] == x;
  }

  /** Nothing is cut off unless something follows an element that stops. */
  ghost predicate NothingFollows<T>(s: seq<T>, stop: T -> bool) {
    forall i | 0 <= i < |s| - 1 :: !stop(s[i])
  }

  /** The only prefix that has no stop before its end, and that is all of `s` or ends in a stop. */
  lemma {:induction false} UpToMeaning<T>(s: seq<T>, stop: T -> bool)
    ensures UpTo(s, stop) <= s && NothingFollows(UpTo(s, stop), stop)
    ensures UpTo(s, stop) == s <==> NothingFollows(s, stop)
    ensures UpTo(s, stop) != s ==> UpTo(s, stop) != [] && stop(UpTo(s, stop)[|UpTo(s, stop)| - 1])
    ensures Any(UpTo(s, stop), stop) <==> Any(s, stop)
  {
    if s != [] {
      var before := s[..|s| - 1];
      UpToMeaning(before, stop);
      if Any(before, stop) {
        var i :| 0 <= i < |before| && stop(before[i]);
        assert s[i] == before[i];
      } else {
        assert forall i | 0 <= i < |s| - 1 :: s[i] == before[i];
      }
    }
  }

  function Count<T>(s: seq<T>, wanted: T -> bool): (n: nat)
    ensures n <= |s|
  {
    if s == [] then 0 else Count(s[..|s| - 1], wanted) + if wanted(s[|s| - 1]) then 1 else 0
  }

  lemma {:induction false} CountSnoc<T>(s: seq<T>, x: T, wanted: T -> bool)
    ensures Count(s + [x], wanted) == Count(s, wanted) + if wanted(x) then 1 else 0
  {
    assert (s + [x])[..|s|] == s;
  }

  lemma {:induction false} SplitLast<T>(s: seq<T>)
    requires s != []
    ensures s == s[..|s| - 1] + [s[|s| - 1]]
  {
  }

  lemma {:induction false} SplitAt<T>(s: seq<T>, n: nat)
    requires n <= |s|
    ensures s == s[..n] + s[n..]
  {
  }

  lemma {:induction false} ConcatAssoc<T>(a: seq<T>, b: seq<T>, c: seq<T>)
    ensures a + (b + c) == a + b + c
  {
  }

  lemma {:induction false} ConsConcat<T>(a: seq<T>, b: seq<T>)
    requires a != []
    ensures (a + b)[0] == a[0] && (a + b)[1..] == a[1..] + b
  {
  }

  lemma {:induction false} PrefixSnoc<T>(s: seq<T>, k: nat)
    requires 0 < k <= |s|
    ensures s[..k] == s[..k - 1] + [s[k - 1]]
  {
  }
}
