/** Bytes, single-bit flags, options and clamps shared by the register codec and the client. */
module Bytes {

  /** One octet of the register, as the integer Python reads from a `bytearray`. */
  type byte = x: int | 0 <= x < 256

  /** The one-bit masks the register uses: 0x02 and 0x08. */
  type Mask = m: int | m == 0x02 || m == 0x08 witness 0x02

  datatype Option<+T> = None | Some(value: T)

  /** Python's `max(lo, min(hi, x))` on integers. */
  function Clamp(lo: int, hi: int, x: int): (r: int)
    requires lo <= hi
    ensures lo <= r <= hi
    ensures lo <= x <= hi ==> r == x
    ensures x < lo ==> r == lo
    ensures hi < x ==> r == hi
  {
    if x < lo then lo else if hi < x then hi else x
  }

  /** Python's `max(lo, min(hi, x))` on a float, taken as an exact real. */
  function ClampReal(lo: real, hi: real, x: real): (r: real)
    requires lo <= hi
    ensures lo <= r <= hi
    ensures lo <= x <= hi ==> r == x
    ensures x < lo ==> r == lo
    ensures hi < x ==> r == hi
  {
    if x < lo then lo else if hi < x then hi else x
  }

  /** Python's `bool(b & mask)` for a one-bit mask: bit 1 is set when b mod 4 is at least 2,
      bit 3 when b mod 16 is at least 8. */
  predicate HasBits(b: byte, mask: Mask)
    ensures HasBits(b, mask) ==> mask <= b
  {
    if mask == 0x02 then b % 0x04 >= 0x02 else b % 0x10 >= 0x08
  }

  /** Python's `b | mask` for a one-bit mask: that bit set, the bits below and above it kept. */
  function SetBits(b: byte, mask: Mask): (r: byte)
    ensures HasBits(r, mask)
    ensures mask == 0x02 ==> r % 0x02 == b % 0x02 && r / 0x04 == b / 0x04
    ensures mask == 0x08 ==> r % 0x08 == b % 0x08 && r / 0x10 == b / 0x10
  {
    if HasBits(b, mask) then b
    else if mask == 0x02 then SetBit1(b); b + 2
    else SetBit3(b); b + 8
  }

  /** Python's `b & ~mask` for a one-bit mask: that bit clear, the bits below and above it kept. */
  function ClearBits(b: byte, mask: Mask): (r: byte)
    ensures !HasBits(r, mask)
    ensures mask == 0x02 ==> r % 0x02 == b % 0x02 && r / 0x04 == b / 0x04
    ensures mask == 0x08 ==> r % 0x08 == b % 0x08 && r / 0x10 == b / 0x10
  {
    if !HasBits(b, mask) then b
    else if mask == 0x02 then ClearBit1(b); b - 2
    else ClearBit3(b); b - 8
  }

  /** Turning bit 1 (worth 2) on keeps bit 0 and bits 2..7. */
  lemma SetBit1(b: int)
    requires 0 <= b && b % 4 < 2
    ensures (b + 2) % 4 >= 2 && (b + 2) % 2 == b % 2 && (b + 2) / 4 == b / 4
  {
    var q, r := b / 4, b % 4;
    assert b == 2 * (2 * q) + r && b + 2 == 2 * (2 * q + 1) + r && b + 2 == 4 * q + (r + 2);
  }

  /** Turning bit 1 off keeps bit 0 and bits 2..7. */
  lemma ClearBit1(b: int)
    requires 0 <= b && b % 4 >= 2
    ensures 2 <= b && (b - 2) % 4 < 2 && (b - 2) % 2 == b % 2 && (b - 2) / 4 == b / 4
  {
    var q, r := b / 4, b % 4;
    assert b == 2 * (2 * q + 1) + (r - 2) && b - 2 == 2 * (2 * q) + (r - 2) && b - 2 == 4 * q + (r - 2);
  }

  /** Turning bit 3 (worth 8) on keeps bits 0..2 and 4..7. */
  lemma SetBit3(b: int)
    requires 0 <= b && b % 16 < 8
    ensures (b + 8) % 16 >= 8 && (b + 8) % 8 == b % 8 && (b + 8) / 16 == b / 16
  {
    var q, r := b / 16, b % 16;
    assert b == 8 * (2 * q) + r && b + 8 == 8 * (2 * q + 1) + r && b + 8 == 16 * q + (r + 8);
  }

  /** Turning bit 3 off keeps bits 0..2 and 4..7. */
  lemma ClearBit3(b: int)
    requires 0 <= b && b % 16 >= 8
    ensures 8 <= b && (b - 8) % 16 < 8 && (b - 8) % 8 == b % 8 && (b - 8) / 16 == b / 16
  {
    var q, r := b / 16, b % 16;
    assert b == 8 * (2 * q + 1) + (r - 8) && b - 8 == 8 * (2 * q) + (r - 8) && b - 8 == 16 * q + (r - 8);
  }

  /** Bit 3 of `b` is bit 1 of `b / 4`. */
  lemma Bit3OfQuarter(b: int)
    requires 0 <= b
    ensures (b % 16 >= 8) == ((b / 4) % 4 >= 2)
  {
    var q, n := b / 16, b % 16;
    assert n == 4 * (n / 4) + n % 4;
    assert b == 4 * (4 * q + n / 4) + n % 4;
    assert b / 4 == 4 * q + n / 4;
  }

  /** Bit 1 of `b` lies within its low three bits. */
  lemma Bit1OfLowThree(b: int)
    requires 0 <= b
    ensures b % 4 == (b % 8) % 4
  {
    var p, e := b / 8, b % 8;
    assert e == 4 * (e / 4) + e % 4;
    assert b == 4 * (2 * p + e / 4) + e % 4;
    assert b / 4 == 2 * p + e / 4;
  }

  /** Setting one bit leaves the other bit as it was. */
  lemma SetKeepsOtherBit(b: byte, mask: Mask, other: Mask)
    requires mask != other
    ensures HasBits(SetBits(b, mask), other) == HasBits(b, other)
  {
    var r := SetBits(b, mask);
    if mask == 0x02 {
      Bit3OfQuarter(b);
      Bit3OfQuarter(r);
    } else {
      Bit1OfLowThree(b);
      Bit1OfLowThree(r);
    }
  }

  /** Clearing one bit leaves the other bit as it was. */
  lemma ClearKeepsOtherBit(b: byte, mask: Mask, other: Mask)
    requires mask != other
    ensures HasBits(ClearBits(b, mask), other) == HasBits(b, other)
  {
    var r := ClearBits(b, mask);
    if mask == 0x02 {
      Bit3OfQuarter(b);
      Bit3OfQuarter(r);
    } else {
      Bit1OfLowThree(b);
      Bit1OfLowThree(r);
    }
  }

  /** Bit 1 of an octet, bitwise and arithmetically. */
  lemma Octet1(x: bv8)
    ensures (x & 0x02 != 0) == ((x as int) % 4 >= 2)
    ensures x & 0x02 != 0 ==> x | 0x02 == x && (x & !0x02) as int == x as int - 2
    ensures x & 0x02 == 0 ==> x & !0x02 == x && (x | 0x02) as int == x as int + 2
  {
  }

  /** Bit 3 of an octet, bitwise and arithmetically. */
  lemma Octet3(x: bv8)
    ensures (x & 0x08 != 0) == ((x as int) % 16 >= 8)
    ensures x & 0x08 != 0 ==> x | 0x08 == x && (x & !0x08) as int == x as int - 8
    ensures x & 0x08 == 0 ==> x & !0x08 == x && (x | 0x08) as int == x as int + 8
  {
  }

  /** The arithmetic flag test agrees with the machine's bitwise `b & mask`, for every octet. */
  lemma HasBitsIsBitwiseAnd(x: bv8, mask: Mask)
    ensures HasBits(x as int, mask) == (x & mask as bv8 != 0)
  {
    if mask == 0x02 {
      assert mask as bv8 == 0x02;
      Octet1(x);
    } else {
      assert mask as bv8 == 0x08;
      Octet3(x);
    }
  }

  /** The arithmetic `SetBits` agrees with the machine's bitwise `b | mask`, for every octet. */
  lemma SetBitsIsBitwiseOr(x: bv8, mask: Mask)
    ensures SetBits(x as int, mask) == (x | mask as bv8) as int
  {
    if mask == 0x02 {
      assert mask as bv8 == 0x02;
      Octet1(x);
    } else {
      assert mask as bv8 == 0x08;
      Octet3(x);
    }
  }

  /** The arithmetic `ClearBits` agrees with the machine's bitwise `b & ~mask`, for every octet. */
  lemma ClearBitsIsBitwiseAndNot(x: bv8, mask: Mask)
    ensures ClearBits(x as int, mask) == (x & !(mask as bv8)) as int
  {
    if mask == 0x02 {
      assert mask as bv8 == 0x02;
      Octet1(x);
    } else {
      assert mask as bv8 == 0x08;
      Octet3(x);
    }
  }

  /** `a` and `b` have the same length and agree at every offset outside `touched`. */
  predicate SameExcept(a: seq<byte>, b: seq<byte>, touched: set<int>) {
    |a| == |b| && forall i :: 0 <= i < |a| && i !in touched ==> a[i] == b[i]
  }
}
