/** Octets and the big-endian words the wire formats are made of. */
module Bytes {
  import opened Basics

  type byte = x: int | 0 <= x < 256

  /** Unsigned 16- and 32-bit values, as plain integers. */
  type uint16 = x: int | 0 <= x < 0x1_0000
  type uint32 = x: int | 0 <= x < 0x1_0000_0000

  function High(n: uint16): byte {
    n / 256
  }

  function Low(n: uint16): byte {
    n % 256
  }

  /** The 16-bit number whose big-endian octets are `h` and `l`. */
  function Word(h: byte, l: byte): uint16 {
    h * 256 + l
  }

  /** The 32-bit number whose big-endian halves are `h` and `l`. */
  function Long(h: uint16, l: uint16): uint32 {
    h * 0x1_0000 + l
  }

  /** Subtraction modulo 65536, as Go subtracts two uint16 values. */
  function Minus16(a: uint16, b: uint16): (d: uint16)
    ensures d == (a - b) % 0x1_0000
  {
    if a >= b then a - b else a - b + 0x1_0000
  }

  /** Addition modulo 65536. */
  function Plus16(a: uint16, b: uint16): (s: uint16)
    ensures s == (a + b) % 0x1_0000
  {
    if a + b < 0x1_0000 then a + b else a + b - 0x1_0000
  }

  /** Exclusive or of two `k`-bit numbers, lowest bit first. */
  function XorBits(k: nat, a: nat, b: nat): (r: nat)
    requires a < Pow2(k) && b < Pow2(k)
    ensures r < Pow2(k)
  {
    if k == 0 then 0
    else 2 * XorBits(k - 1, a / 2, b / 2) + (if a % 2 == b % 2 then 0 else 1)
  }

  /** Exclusive or of two octets. */
  function Xor(a: byte, b: byte): (r: byte) {
    assert Pow2(8) == 256;
    XorBits(8, a, b)
  }

  function Bit(a: nat, i: nat): bool {
    if i == 0 then a % 2 == 1 else Bit(a / 2, i - 1)
  }

  lemma {:induction false} XorBitsBit(k: nat, a: nat, b: nat, i: nat)
    requires a < Pow2(k) && b < Pow2(k) && i < k
    ensures Bit(XorBits(k, a, b), i) <==> (Bit(a, i) != Bit(b, i))
  {
    if i > 0 {
      XorBitsBit(k - 1, a / 2, b / 2, i - 1);
    }
  }

  /** `Xor` is exclusive or: it sets exactly the bits in which its operands differ. */
  lemma XorBit(a: byte, b: byte, i: nat)
    requires i < 8
    ensures Bit(Xor(a, b), i) <==> (Bit(a, i) != Bit(b, i))
  {
    assert Pow2(8) == 256;
    XorBitsBit(8, a, b, i);
  }

  lemma {:induction false} XorBitsCancel(k: nat, a: nat, b: nat)
    requires a < Pow2(k) && b < Pow2(k)
    ensures XorBits(k, a, b) == XorBits(k, b, a)
    ensures XorBits(k, a, a) == 0
    ensures XorBits(k, a, 0) == a
  {
    if k > 0 {
      XorBitsCancel(k - 1, a / 2, b / 2);
    }
  }

  lemma XorBitsStep(k: nat, a: nat, b: nat, r: nat)
    requires k > 0 && a < Pow2(k) && b < Pow2(k) && r == XorBits(k, a, b)
    ensures r / 2 == XorBits(k - 1, a / 2, b / 2)
    ensures r % 2 == 0 <==> a % 2 == b % 2
  {
  }

  lemma {:induction false} XorBitsAssociate(k: nat, a: nat, b: nat, c: nat)
    requires a < Pow2(k) && b < Pow2(k) && c < Pow2(k)
    ensures XorBits(k, XorBits(k, a, b), c) == XorBits(k, a, XorBits(k, b, c))
  {
    if k > 0 {
      var ab, bc := XorBits(k, a, b), XorBits(k, b, c);
      XorBitsStep(k, a, b, ab);
      XorBitsStep(k, b, c, bc);
      var left, right := XorBits(k, ab, c), XorBits(k, a, bc);
      XorBitsStep(k, ab, c, left);
      XorBitsStep(k, a, bc, right);
      XorBitsAssociate(k - 1, a / 2, b / 2, c / 2);
      assert left / 2 == right / 2 && left % 2 == right % 2;
    }
  }

  /** Octets form an abelian group under `Xor` in which every octet is its own inverse. */
  lemma XorLaws(a: byte, b: byte, c: byte)
    ensures Xor(a, b) == Xor(b, a)
    ensures Xor(a, a) == 0
    ensures Xor(a, 0) == a && Xor(0, a) == a
    ensures Xor(Xor(a, b), c) == Xor(a, Xor(b, c))
  {
    assert Pow2(8) == 256;
    XorBitsCancel(8, a, b);
    XorBitsCancel(8, a, 0);
    XorBitsAssociate(8, a, b, c);
  }
}
