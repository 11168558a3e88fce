/** Reading and writing of the primitive AMQP data fields: integers, short strings and long strings. */
module Primitives {
  import opened Bytes

  /** EOF means that nothing at all was left; a read that is cut short part way is UnexpectedEOF. */
  datatype Error = EOF | UnexpectedEOF | Syntax | BadFrame | HeartbeatPayload | UnknownMethod | NegativeLength

  /** The outcome of consuming some octets of a stream, with the octets left unread either way. */
  datatype Read<+T> = Ok(value: T, rest: bytes) | Err(error: Error, rest: bytes) {
    predicate IsFailure() {
      Err?
    }

    function PropagateFailure<U>(): Read<U>
      requires Err?
    {
      Err(error, rest)
    }

    function Extract(): (T, bytes)
      requires Ok?
    {
      (value, rest)
    }

    function Map<U>(f: T -> U): Read<U> {
      match this
      case Ok(v, r) => Ok(f(v), r)
      case Err(e, r) => Err(e, r)
    }
  }

  /** io.ReadFull of `n` octets. */
  function ReadFull(data: bytes, n: nat): (r: Read<bytes>)
    ensures r.Ok? <==> n <= |data|
    ensures r.Ok? ==> |r.value| == n && r.value + r.rest == data
    ensures r.Err? ==> r.rest == [] && (r.error == EOF <==> data == [])
  {
    if n <= |data| then Ok(data[..n], data[n..])
    else Err(if data == [] then EOF else UnexpectedEOF, [])
  }

  /** binary.Read of a `w`-octet unsigned integer. */
  function ReadUint(data: bytes, w: nat): (r: Read<nat>)
    requires Width(w)
    ensures r.Ok? ==> |r.rest| == |data| - w && r.value < Limit(w)
    ensures |r.rest| <= |data|
  {
    var (s, rest) :- ReadFull(data, w);
    LimitIsPow256(w);
    Ok(FromBigEndian(s), rest)
  }

  lemma {:induction false} ReadUintInverts(n: nat, w: nat, rest: bytes)
    requires Width(w) && n < Limit(w)
    ensures ReadUint(BigEndian(n, w) + rest, w) == Ok(n, rest)
  {
    LimitIsPow256(w);
    var s := BigEndian(n, w);
    assert (s + rest)[..w] == s && (s + rest)[w..] == rest;
    BigEndianRoundTrip(n, w);
  }

  /** writeShortstr: the length octet is the length modulo 256, and only that many octets follow. */
  function Shortstr(s: bytes): (r: bytes)
    ensures |r| == 1 + |s| % 0x100
  {
    [|s| % 0x100] + s[..|s| % 0x100]
  }

  function ReadShortstr(data: bytes): (r: Read<bytes>)
    ensures r.Ok? ==> |r.rest| < |data|
    ensures |r.rest| <= |data|
  {
    var (n, d) :- ReadUint(data, 1);
    ReadFull(d, n)
  }

  /** What a peer reads back from any short string, over-long ones included. */
  lemma {:induction false} ReadShortstrInverts(s: bytes, rest: bytes)
    ensures ReadShortstr(Shortstr(s) + rest) == Ok(s[..|s| % 0x100], rest)
  {
    var n := |s| % 0x100;
    var data := Shortstr(s) + rest;
    assert data == BigEndian(n, 1) + (s[..n] + rest) by {
      assert BigEndian(n, 1) == BigEndian(n / 256, 0) + [n];
    }
    ReadUintInverts(n, 1, s[..n] + rest);
    assert (s[..n] + rest)[..n] == s[..n] && (s[..n] + rest)[n..] == rest;
  }

  /** A short string survives the trip exactly when it is at most 255 octets long. */
  lemma {:induction false} ShortstrFaithful(s: bytes, rest: bytes)
    ensures ReadShortstr(Shortstr(s) + rest) == Ok(s, rest) <==> |s| <= 0xFF
  {
    ReadShortstrInverts(s, rest);
    if |s| <= 0xFF {
      assert s[..|s|] == s;
    } else {
      assert |s[..|s| % 0x100]| < |s|;
    }
  }

  const MAX_INT32: nat := 0x7FFF_FFFF

  /** writeLongstr: a four-octet length modulo 2^32, then that many octets. */
  function Longstr(s: bytes): (r: bytes)
    ensures |r| == 4 + |s| % 0x1_0000_0000
  {
    BigEndian(|s| % 0x1_0000_0000, 4) + s[..|s| % 0x1_0000_0000]
  }

  /** readLongstr: a length above the largest int32 yields the empty string and skips only the length. */
  function ReadLongstr(data: bytes): (r: Read<bytes>)
    ensures r.Ok? ==> |r.rest| + |r.value| + 4 <= |data|
    ensures |r.rest| <= |data|
  {
    var (n, d) :- ReadUint(data, 4);
    if n > MAX_INT32 then Ok([], d) else ReadFull(d, n)
  }

  lemma {:induction false} ReadLongstrInverts(s: bytes, rest: bytes)
    ensures var n := |s| % 0x1_0000_0000;
            ReadLongstr(Longstr(s) + rest) == if n <= MAX_INT32 then Ok(s[..n], rest) else Ok([], s[..n] + rest)
  {
    var n := |s| % 0x1_0000_0000;
    assert Longstr(s) + rest == BigEndian(n, 4) + (s[..n] + rest);
    ReadUintInverts(n, 4, s[..n] + rest);
    assert (s[..n] + rest)[..n] == s[..n] && (s[..n] + rest)[n..] == rest;
  }

  /** A long string survives the trip exactly when it is no longer than the largest int32. */
  lemma {:induction false} LongstrFaithful(s: bytes, rest: bytes)
    ensures ReadLongstr(Longstr(s) + rest) == Ok(s, rest) <==> |s| <= MAX_INT32
  {
    ReadLongstrInverts(s, rest);
    if |s| <= MAX_INT32 {
      assert s[..|s|] == s;
    } else {
      var n := |s| % 0x1_0000_0000;
      assert n <= MAX_INT32 ==> |s[..n]| < |s|;
    }
  }
}
