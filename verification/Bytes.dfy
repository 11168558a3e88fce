/** Octets, network byte order and the two's-complement views that the codec rests on. */
module Bytes {

  type byte = x: int | 0 <= x < 0x100
  type bytes = seq<byte>

  type uint16 = x: int | 0 <= x < 0x1_0000
  type uint32 = x: int | 0 <= x < 0x1_0000_0000
  type uint64 = x: int | 0 <= x < 0x1_0000_0000_0000_0000
  type int8 = x: int | -0x80 <= x < 0x80
  type int16 = x: int | -0x8000 <= x < 0x8000
  type int32 = x: int | -0x8000_0000 <= x < 0x8000_0000
  type int64 = x: int | -0x8000_0000_0000_0000 <= x < 0x8000_0000_0000_0000

  /** The number of values of `w` octets. */
  function Pow256(w: nat): (p: nat)
    ensures p > 0
  {
    if w == 0 then 1 else 256 * Pow256(w - 1)
  }

  /** The low `w` octets of `n`, most significant octet first. */
  function BigEndian(n: nat, w: nat): (s: bytes)
    ensures |s| == w
  {
    if w == 0 then [] else BigEndian(n / 256, w - 1) + [n % 256]
  }

  function FromBigEndian(s: bytes): (n: nat)
    ensures n < Pow256(|s|)
  {
    if s == [] then 0 else FromBigEndian(s[..|s| - 1]) * 256 + s[|s| - 1]
  }

  lemma {:induction false} BigEndianRoundTrip(n: nat, w: nat)
    requires n < Pow256(w)
    ensures FromBigEndian(BigEndian(n, w)) == n
  {
    if w == 0 {
    } else {
      BigEndianRoundTrip(n / 256, w - 1);
      assert BigEndian(n, w)[..w - 1] == BigEndian(n / 256, w - 1);
    }
  }

  /** The widths of the integers on the wire. */
  predicate Width(w: nat) {
    w == 1 || w == 2 || w == 4 || w == 8
  }

  /** 2^8w for the widths in use. */
  function Limit(w: nat): (p: nat)
    requires Width(w)
    ensures p > 1
  {
    if w == 1 then 0x100
    else if w == 2 then 0x1_0000
    else if w == 4 then 0x1_0000_0000
    else 0x1_0000_0000_0000_0000
  }

  lemma {:induction false} LimitIsPow256(w: nat)
    requires Width(w)
    ensures Limit(w) == Pow256(w)
  {
    if w == 1 {
      assert Pow256(1) == 0x100;
    } else if w == 2 {
      assert Pow256(2) == 0x1_0000;
    } else if w == 4 {
      assert Pow256(4) == 0x1_0000_0000;
    } else {
      assert Pow256(8) == 0x1_0000_0000_0000_0000;
    }
  }

  /** The conversion uintN(n) of a signed or over-long integer: truncation modulo 2^8w. */
  function Unsigned(n: int, w: nat): (u: nat)
    requires Width(w)
    ensures u < Limit(w)
  {
    n % Limit(w)
  }

  /** The conversion intN(u) of a `w`-octet unsigned integer. */
  function Signed(u: nat, w: nat): int
    requires Width(w)
  {
    if u < Limit(w) / 2 then u else u - Limit(w)
  }

  lemma {:induction false} SignedRoundTrip(n: int, w: nat)
    requires Width(w)
    requires -(Limit(w) / 2) <= n < Limit(w) / 2
    ensures Signed(Unsigned(n, w), w) == n
  {
    if w == 1 {
    } else if w == 2 {
    } else if w == 4 {
    } else {
    }
  }

  lemma {:induction false} SmallMod(n: nat, p: nat)
    requires n < p
    ensures n % p == n
  {
  }

  /** The integer whose binary digits are `bits`, least significant first. */
  function FromBits(bits: seq<bool>): (n: nat) {
    if bits == [] then 0 else (if bits[0] then 1 else 0) + 2 * FromBits(bits[1..])
  }

  /** The low `k` binary digits of `n`, least significant first. */
  function ToBits(n: nat, k: nat): (bits: seq<bool>)
    ensures |bits| == k
  {
    if k == 0 then [] else [n % 2 == 1] + ToBits(n / 2, k - 1)
  }

  function Pow2(k: nat): (p: nat)
    ensures p > 0
  {
    if k == 0 then 1 else 2 * Pow2(k - 1)
  }

  lemma {:induction false} Pow2Values()
    ensures Pow2(8) == 0x100 && Pow2(16) == 0x1_0000
  {
    assert Pow2(8) == 0x100;
    assert Pow2(12) == 0x1000;
    assert Pow2(16) == 2 * 2 * 2 * 2 * Pow2(12);
  }

  lemma {:induction false} BitsRoundTrip(bits: seq<bool>)
    ensures ToBits(FromBits(bits), |bits|) == bits
    ensures FromBits(bits) < Pow2(|bits|)
  {
    if bits != [] {
      BitsRoundTrip(bits[1..]);
    }
  }

  /** The concatenation of a sequence of octet strings. */
  function Flatten(ss: seq<bytes>): (r: bytes) {
    if ss == [] then [] else ss[0] + Flatten(ss[1..])
  }

  lemma {:induction false} FlattenAppend(ss: seq<bytes>, s: bytes)
    ensures Flatten(ss + [s]) == Flatten(ss) + s
  {
    if ss == [] {
      assert [s][1..] == [];
    } else {
      assert (ss + [s])[1..] == ss[1..] + [s];
      FlattenAppend(ss[1..], s);
    }
  }
}
