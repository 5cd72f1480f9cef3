/** Octets, big-endian fields and the exclusive-or that a stream cipher applies. */
module Bytes {
  type byte = b: int | 0 <= b < 256
  type bytes = seq<byte>

  function Zeros(n: nat): (z: bytes)
    ensures |z| == n
  {
    seq(n, i => 0)
  }

  /** Network-order 16-bit field, as `struct` packs '!H'. */
  function U16(n: nat): (s: bytes)
    requires n < 0x1_0000
    ensures |s| == 2 && FromU16(s) == n
  {
    [n / 256, n % 256]
  }

  function FromU16(s: bytes): (n: nat)
    requires |s| == 2
    ensures n < 0x1_0000
    ensures n / 256 == s[0] && n % 256 == s[1]
  {
    var hi: int, lo: int := s[0], s[1];
    hi * 256 + lo
  }

  /** Network-order 32-bit field, as `struct` packs '!I'. */
  function U32(n: nat): (s: bytes)
    requires n < 0x1_0000_0000
    ensures |s| == 4 && FromU32(s) == n
  {
    var hi, lo := U16(n / 0x1_0000), U16(n % 0x1_0000);
    assert (hi + lo)[..2] == hi && (hi + lo)[2..] == lo;
    hi + lo
  }

  function FromU32(s: bytes): (n: nat)
    requires |s| == 4
    ensures n < 0x1_0000_0000
    ensures n / 0x1_0000 == FromU16(s[..2]) && n % 0x1_0000 == FromU16(s[2..])
  {
    FromU16(s[..2]) * 0x1_0000 + FromU16(s[2..])
  }

  /** Exclusive or of two `bits`-bit numbers. */
  function XorBits(bits: nat, a: nat, b: nat): (x: nat) {
    if bits == 0 then 0
    else 2 * XorBits(bits - 1, a / 2, b / 2) + (if a % 2 == b % 2 then 0 else 1)
  }

  function Pow2(bits: nat): nat {
    if bits == 0 then 1 else 2 * Pow2(bits - 1)
  }

  lemma {:induction false} XorBitsBound(bits: nat, a: nat, b: nat)
    ensures XorBits(bits, a, b) < Pow2(bits)
  {
    if bits > 0 {
      XorBitsBound(bits - 1, a / 2, b / 2);
    }
  }

  lemma XorBitsParts(bits: nat, a: nat, b: nat)
    requires bits > 0
    ensures XorBits(bits, a, b) / 2 == XorBits(bits - 1, a / 2, b / 2)
    ensures XorBits(bits, a, b) % 2 == if a % 2 == b % 2 then 0 else 1
  {
  }

  lemma {:induction false} XorBitsCancels(bits: nat, a: nat, b: nat)
    requires a < Pow2(bits)
    ensures XorBits(bits, XorBits(bits, a, b), b) == a
  {
    if bits > 0 {
      XorBitsCancels(bits - 1, a / 2, b / 2);
      XorBitsParts(bits, a, b);
      XorBitsParts(bits, XorBits(bits, a, b), b);
    }
  }

  lemma {:induction false} XorBitsInjective(bits: nat, a: nat, b: nat, b': nat)
    requires XorBits(bits, a, b) == XorBits(bits, a, b') && b < Pow2(bits) && b' < Pow2(bits)
    ensures b == b'
  {
    if bits > 0 {
      XorBitsParts(bits, a, b);
      XorBitsParts(bits, a, b');
      XorBitsInjective(bits - 1, a / 2, b / 2, b' / 2);
    }
  }

  lemma {:induction false} XorBitsZero(bits: nat, a: nat)
    requires a < Pow2(bits)
    ensures XorBits(bits, a, 0) == a
  {
    if bits > 0 {
      XorBitsZero(bits - 1, a / 2);
    }
  }

  /** Two key streams, one after the other, are one. */
  lemma {:induction false} XorBitsTwice(bits: nat, a: nat, b: nat, c: nat)
    ensures XorBits(bits, XorBits(bits, a, b), c) == XorBits(bits, a, XorBits(bits, c, b))
  {
    if bits > 0 {
      XorBitsParts(bits, a, b);
      XorBitsParts(bits, c, b);
      XorBitsParts(bits, XorBits(bits, a, b), c);
      XorBitsParts(bits, a, XorBits(bits, c, b));
      XorBitsTwice(bits - 1, a / 2, b / 2, c / 2);
    }
  }

  /** The `i`-th binary digit. */
  function Bit(n: nat, i: nat): (b: nat) {
    if i == 0 then n % 2 else Bit(n / 2, i - 1)
  }

  lemma {:induction false} XorBitsAt(bits: nat, a: nat, b: nat, i: nat)
    requires i < bits
    ensures Bit(XorBits(bits, a, b), i) == if Bit(a, i) == Bit(b, i) then 0 else 1
  {
    XorBitsParts(bits, a, b);
    if i > 0 {
      XorBitsAt(bits - 1, a / 2, b / 2, i - 1);
    }
  }

  lemma {:induction false} BitIs(n: nat, i: nat)
    ensures Bit(n, i) <= 1
  {
    if i > 0 {
      BitIs(n / 2, i - 1);
    }
  }

  function XorByte(a: byte, b: byte): (x: byte)
    ensures XorBits(8, x, b) == a
  {
    assert Pow2(8) == 256;
    XorBitsBound(8, a, b);
    XorBitsCancels(8, a, b);
    XorBits(8, a, b)
  }
}
