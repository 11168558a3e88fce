/** Integers and strings on the wire, octet by octet. */
module Octets {
  import opened Bytes

  function U16(n: uint16): bytes {
    [n / 0x100, n % 0x100]
  }

  function U32(n: uint32): bytes {
    [n / 0x100_0000, n / 0x1_0000 % 0x100, n / 0x100 % 0x100, n % 0x100]
  }

  function U64(n: uint64): bytes {
    U32(n / 0x1_0000_0000) + U32(n % 0x1_0000_0000)
  }

  /** A length octet and that many octets. */
  function Str8(s: bytes): bytes
    requires |s| <= 0xFF
  {
    [|s|] + s
  }

  /** Four octets of length and that many octets. */
  function Str32(s: bytes): bytes
    requires |s| < 0x1_0000_0000
  {
    U32(|s|) + s
  }

  /** The low octets of a negative number are those of its two's complement. */
  function Complement(n: int, limit: nat): int {
    if n < 0 then n + limit else n
  }

  lemma {:induction false} BigEndian1(n: byte)
    ensures BigEndian(n, 1) == [n]
  {
    assert BigEndian(n, 1) == BigEndian(0, 0) + [n];
  }

  lemma {:induction false} BigEndian2(n: uint16)
    ensures BigEndian(n, 2) == U16(n)
  {
    BigEndian1(n / 0x100);
  }

  lemma {:induction false} BigEndian4(n: uint32)
    ensures BigEndian(n, 4) == U32(n)
  {
    assert n / 0x100 / 0x100 == n / 0x1_0000 && n / 0x1_0000 / 0x100 == n / 0x100_0000;
    BigEndian2(n / 0x1_0000);
    assert BigEndian(n / 0x100, 3) == BigEndian(n / 0x1_0000, 2) + [n / 0x100 % 0x100];
  }

  lemma {:induction false} DivideOut(n: nat, m: nat, r: nat)
    requires n == 0x100 * m + r
    ensures n / 0x100 == m + r / 0x100 && n % 0x100 == r % 0x100
  {
  }

  lemma {:induction false} Quarters(low: uint32)
    ensures low / 0x100 / 0x100 == low / 0x1_0000 && low / 0x1_0000 / 0x100 == low / 0x100_0000
    ensures low / 0x100_0000 / 0x100 == 0 && low / 0x100_0000 % 0x100 == low / 0x100_0000
  {
  }

  /** The last four octets of a number come after those of what they leave over. */
  lemma {:induction false} LowFour(n: nat, w: nat)
    ensures BigEndian(n, w + 4) == BigEndian(n / 0x1_0000_0000, w) + U32(n % 0x1_0000_0000)
  {
    var q, low := n / 0x1_0000_0000, n % 0x1_0000_0000;
    Quarters(low);
    DivideOut(n, 0x100_0000 * q, low);
    DivideOut(n / 0x100, 0x1_0000 * q, low / 0x100);
    DivideOut(n / 0x100 / 0x100, 0x100 * q, low / 0x1_0000);
    DivideOut(n / 0x100 / 0x100 / 0x100, q, low / 0x100_0000);
    FourSteps(n, w);
  }

  lemma {:induction false} FourSteps(n: nat, w: nat)
    ensures BigEndian(n, w + 4)
            == BigEndian(n / 0x100 / 0x100 / 0x100 / 0x100, w)
               + [n / 0x100 / 0x100 / 0x100 % 0x100, n / 0x100 / 0x100 % 0x100, n / 0x100 % 0x100, n % 0x100]
  {
    var n1 := n / 0x100;
    var n2 := n1 / 0x100;
    var n3 := n2 / 0x100;
    assert BigEndian(n, w + 4) == BigEndian(n1, w + 3) + [n % 0x100];
    assert BigEndian(n1, w + 3) == BigEndian(n2, w + 2) + [n1 % 0x100];
    assert BigEndian(n2, w + 2) == BigEndian(n3, w + 1) + [n2 % 0x100];
    assert BigEndian(n3, w + 1) == BigEndian(n3 / 0x100, w) + [n3 % 0x100];
  }

  lemma {:induction false} BigEndian8(n: uint64)
    ensures BigEndian(n, 8) == U64(n)
  {
    LowFour(n, 4);
    BigEndian4(n / 0x1_0000_0000);
  }
}
